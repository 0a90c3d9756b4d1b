/**
 * Calendar dates and `strftime('%B %d, %Y')` in the C locale: the full
 * English month name, a space, the day of the month as two digits, ", "
 * and the year as four digits (for example "March 05, 2025").
 */
module Dates {
  import opened Options
  import opened Strings

  datatype Date = Date(year: int, month: int, day: int)

  predicate IsLeapYear(year: int) {
    year % 4 == 0 && (year % 100 != 0 || year % 400 == 0)
  }

  function DaysInMonth(year: int, month: int): int
    requires 1 <= month <= 12
  {
    if month == 2 then (if IsLeapYear(year) then 29 else 28)
    else if month in {4, 6, 9, 11} then 30
    else 31
  }

  /**
   * A date the system clock can report, restricted to four-digit years:
   * below 1000 the padding of `%Y` differs between platforms.
   */
  predicate Valid(d: Date) {
    1000 <= d.year <= 9999 && 1 <= d.month <= 12 && 1 <= d.day <= DaysInMonth(d.year, d.month)
  }

  const MonthNames: seq<string> :=
    ["January", "February", "March", "April", "May", "June",
     "July", "August", "September", "October", "November", "December"]

  /** `%B`: the full month name, a single line that names its month and no other. */
  function MonthName(month: int): (r: string)
    requires 1 <= month <= 12
    ensures MonthNumber(r) == Some(month)
    ensures NoNewline(r) && 3 <= |r| && IsAscii(r)
  {
    MonthNames[month - 1]
  }

  /** The month whose full name is `name`. */
  function MonthNumber(name: string): Option<int> {
    if name == "January" then Some(1)
    else if name == "February" then Some(2)
    else if name == "March" then Some(3)
    else if name == "April" then Some(4)
    else if name == "May" then Some(5)
    else if name == "June" then Some(6)
    else if name == "July" then Some(7)
    else if name == "August" then Some(8)
    else if name == "September" then Some(9)
    else if name == "October" then Some(10)
    else if name == "November" then Some(11)
    else if name == "December" then Some(12)
    else None
  }

  lemma MonthNumberName(name: string, month: int)
    requires MonthNumber(name) == Some(month)
    ensures 1 <= month <= 12 && MonthName(month) == name
  {
  }

  function Digit(n: int): char
    requires 0 <= n <= 9
  {
    ('0' as int + n) as char
  }

  function DigitValue(c: char): Option<int> {
    if '0' <= c <= '9' then Some(c as int - '0' as int) else None
  }

  /** The value of a string of decimal digits (the empty string reads as 0). */
  function Number(s: string): Option<int>
  {
    if |s| == 0 then Some(0)
    else
      var d :- DigitValue(s[|s| - 1]);
      var v :- Number(s[..|s| - 1]);
      Some(10 * v + d)
  }

  /** `%d`: the day as two digits, zero-padded, which read back as the day. */
  function Pad2(n: int): (r: string)
    requires 0 <= n <= 99
    ensures |r| == 2 && Number(r) == Some(n) && IsAscii(r)
  {
    NumberSnoc([], Digit(n / 10));
    NumberSnoc([Digit(n / 10)], Digit(n % 10));
    DigitValueOf(n / 10);
    DigitValueOf(n % 10);
    assert [Digit(n / 10), Digit(n % 10)] == [] + [Digit(n / 10)] + [Digit(n % 10)];
    [Digit(n / 10), Digit(n % 10)]
  }

  /** `%Y` for a four-digit year: four digits, zero-padded, which read back as the year. */
  function Pad4(n: int): (r: string)
    requires 0 <= n <= 9999
    ensures |r| == 4 && Number(r) == Some(n) && IsAscii(r)
  {
    NumberConcat(Pad2(n / 100), Pad2(n % 100));
    assert Pow10(2) == 100;
    Pad2(n / 100) + Pad2(n % 100)
  }

  lemma DigitValueOf(k: int)
    requires 0 <= k <= 9
    ensures DigitValue(Digit(k)) == Some(k)
  {
  }

  /** Reading one more digit at the end shifts the value one decimal place. */
  lemma NumberSnoc(s: string, c: char)
    ensures Number(s + [c]) ==
      match (Number(s), DigitValue(c))
      case (Some(v), Some(d)) => Some(10 * v + d)
      case _ => None
  {
    assert (s + [c])[..|s|] == s;
  }

  /** Appending a digit to both parts of `p * a + b` shifts the weight of `a` one decimal place. */
  lemma ShiftDigit(p: int, a: int, b: int, d: int)
    ensures 10 * (p * a + b) + d == (10 * p) * a + (10 * b + d)
  {
    assert 10 * (p * a) == (10 * p) * a;
  }

  /** Reading a concatenation of digit strings: the left part's value is shifted by the right part's length. */
  lemma {:induction false} NumberConcat(x: string, y: string)
    ensures Number(x + y) ==
      match (Number(x), Number(y))
      case (Some(a), Some(b)) => Some(Pow10(|y|) * a + b)
      case _ => None
    decreases |y|
  {
    if |y| == 0 {
      assert x + y == x;
    } else {
      var y' := y[..|y| - 1];
      var c := y[|y| - 1];
      assert y == y' + [c];
      assert x + y == (x + y') + [c];
      NumberSnoc(x + y', c);
      NumberSnoc(y', c);
      NumberConcat(x, y');
      if Number(x).Some? && Number(y').Some? && DigitValue(c).Some? {
        var a, b, k, p := Number(x).value, Number(y').value, DigitValue(c).value, Pow10(|y'|);
        assert Number(y) == Some(10 * b + k);
        assert Number(x + y) == Some(10 * (p * a + b) + k);
        assert Pow10(|y|) == 10 * p;
        ShiftDigit(p, a, b, k);
      } else {
        assert Number(x + y) == None;
      }
    }
  }

  /** A string of exactly `k` characters that reads as a number is all digits and below 10^k. */
  lemma NumberDigits(s: string, n: int)
    requires Number(s) == Some(n)
    ensures 0 <= n
    ensures forall i :: 0 <= i < |s| ==> '0' <= s[i] <= '9'
    ensures |s| <= 4 ==> n < Pow10(|s|)
  {
    if |s| > 0 {
      var t := s[..|s| - 1];
      assert s == t + [s[|s| - 1]];
      NumberSnoc(t, s[|s| - 1]);
      NumberDigits(t, Number(t).value);
    }
  }

  function Pow10(k: nat): nat {
    if k == 0 then 1 else 10 * Pow10(k - 1)
  }

  lemma NumberPad2(s: string, n: int)
    requires |s| == 2 && Number(s) == Some(n)
    ensures 0 <= n <= 99 && Pad2(n) == s
  {
    NumberDigits(s, n);
    var a, b := s[0] as int - '0' as int, s[1] as int - '0' as int;
    NumberSnoc([], s[0]);
    NumberSnoc([s[0]], s[1]);
    assert s == [] + [s[0]] + [s[1]];
    assert n == 10 * a + b;
    assert n / 10 == a && n % 10 == b;
    assert s == [Digit(a), Digit(b)];
  }

  lemma NumberPad4(s: string, n: int)
    requires |s| == 4 && Number(s) == Some(n)
    ensures 0 <= n <= 9999 && Pad4(n) == s
  {
    var hi, lo := s[..2], s[2..];
    assert s == hi + lo;
    NumberConcat(hi, lo);
    var h, l := Number(hi).value, Number(lo).value;
    NumberPad2(hi, h);
    NumberPad2(lo, l);
    assert Pow10(2) == 100;
    assert n == 100 * h + l;
    HundredsOf(h, l);
  }

  /** Splitting a four-digit value into its two-digit halves. */
  lemma HundredsOf(h: int, l: int)
    requires 0 <= h <= 99 && 0 <= l <= 99
    ensures (100 * h + l) / 100 == h && (100 * h + l) % 100 == l
  {
  }

  /** `strftime('%B %d, %Y')` of `d`. */
  function FormatDate(d: Date): (r: string)
    requires Valid(d)
    ensures NoNewline(r) && 12 <= |r| && IsAscii(r)
  {
    MonthName(d.month) + " " + Pad2(d.day) + ", " + Pad4(d.year)
  }

  /** Reads a formatted date back; `None` for any text `FormatDate` cannot produce. */
  function ParseDate(s: string): Option<Date> {
    var n := |s|;
    if n < 9 || s[n - 9] != ' ' || s[n - 6..n - 4] != ", " then None
    else
      var month :- MonthNumber(s[..n - 9]);
      var day :- Number(s[n - 8..n - 6]);
      var year :- Number(s[n - 4..]);
      var d := Date(year, month, day);
      if Valid(d) then Some(d) else None
  }

  /** Formatting loses nothing: the date can be read back from its text. */
  lemma ParseFormatDate(d: Date)
    requires Valid(d)
    ensures ParseDate(FormatDate(d)) == Some(d)
  {
    var month, day, year := MonthName(d.month), Pad2(d.day), Pad4(d.year);
    var s := FormatDate(d);
    var n := |s|;
    DateLineOf(month, day, year);
    assert MonthNumber(s[..n - 9]) == Some(d.month);
    assert Number(s[n - 8..n - 6]) == Some(d.day);
    assert Number(s[n - 4..]) == Some(d.year);
  }

  /** Where the fields of a date line sit, counted from its end. */
  lemma DateLineOf(month: string, day: string, year: string)
    requires |day| == 2 && |year| == 4
    ensures var s := month + " " + day + ", " + year; var n := |s|;
      n == |month| + 9 && s[..n - 9] == month && s[n - 9] == ' '
      && s[n - 8..n - 6] == day && s[n - 6..n - 4] == ", " && s[n - 4..] == year
  {
    var s := month + " " + day + ", " + year;
    var n := |s|;
    assert s == month + (" " + (day + (", " + year)));
    assert s[n - 9..] == " " + (day + (", " + year));
    assert s[n - 8..] == day + (", " + year);
    assert s[n - 6..] == ", " + year;
  }

  /** Every text that reads as a date is exactly that date's formatted text. */
  lemma FormatParseDate(s: string, d: Date)
    requires ParseDate(s) == Some(d)
    ensures Valid(d) && FormatDate(d) == s
  {
    var n := |s|;
    var month, day, year := s[..n - 9], s[n - 8..n - 6], s[n - 4..];
    assert MonthNumber(month) == Some(d.month) && Number(day) == Some(d.day) && Number(year) == Some(d.year);
    MonthNumberName(month, d.month);
    NumberPad2(day, d.day);
    NumberPad4(year, d.year);
    DateLineParts(s);
    assert [s[n - 9]] == " ";
  }

  /** A date line cut at the places where its fields end. */
  lemma DateLineParts(s: string)
    requires 9 <= |s|
    ensures var n := |s|; s == s[..n - 9] + [s[n - 9]] + s[n - 8..n - 6] + s[n - 6..n - 4] + s[n - 4..]
  {
    var n := |s|;
    assert s[..n - 8] == s[..n - 9] + [s[n - 9]];
    assert s[..n - 6] == s[..n - 8] + s[n - 8..n - 6];
    assert s[..n - 4] == s[..n - 6] + s[n - 6..n - 4];
    assert s == s[..n - 4] + s[n - 4..];
  }
}
