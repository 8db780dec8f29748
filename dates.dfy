/** Date handling of the order utility: the `YYYY-MM-DD` validator applied to the user's date
    and the date part extracted from an order's `orderDate`. */
module Dates {

  /** The shape required by the validator's regular expression: `D` stands for an ASCII digit
      (what `\d` matches), every other character stands for itself. */
  const DatePattern: string := "DDDD-DD-DD"

  /** Days per month, January first; February never has 29 days. */
  const MonthDays: seq<int> := [31, 28, 31, 30, 31, 30, 31, 31, 30, 31, 30, 31]

  predicate IsDigit(c: char) {
    '0' <= c <= '9'
  }

  function DigitValue(c: char): (d: nat)
    requires IsDigit(c)
    ensures d < 10
  {
    (c as int) - ('0' as int)
  }

  /** `s` matches `^\d{4}-\d{2}-\d{2}$`. */
  predicate MatchesPattern(s: string) {
    |s| == |DatePattern| &&
    forall i :: 0 <= i < |s| ==>
      if DatePattern[i] == 'D' then IsDigit(s[i]) else s[i] == DatePattern[i]
  }

  /** The value `parseInt` gives for the two digits at positions `i` and `i + 1`. */
  function TwoDigits(s: string, i: nat): (n: nat)
    requires i + 1 < |s| && IsDigit(s[i]) && IsDigit(s[i + 1])
    ensures n < 100
  {
    10 * DigitValue(s[i]) + DigitValue(s[i + 1])
  }

  /** The month field of a string that matches the pattern. */
  function Month(s: string): nat
    requires MatchesPattern(s)
  {
    assert DatePattern[5] == 'D' && DatePattern[6] == 'D';
    TwoDigits(s, 5)
  }

  /** The day field of a string that matches the pattern. */
  function Day(s: string): nat
    requires MatchesPattern(s)
  {
    assert DatePattern[8] == 'D' && DatePattern[9] == 'D';
    TwoDigits(s, 8)
  }

  /** The calendar rule, written independently of the month table: thirty days hath
      September, April, June and November; February has 28; all the rest have 31. */
  function DaysInMonth(m: int): int {
    if m == 2 then 28
    else if m == 4 || m == 6 || m == 9 || m == 11 then 30
    else 31
  }

  /** The validator: pattern first, then the day range, then the month range, then the
      month table. It accepts exactly the pattern-shaped strings whose month is 1..12 and
      whose day lies within that month under the no-leap-year rule. */
  function ValidateDate(s: string): (ok: bool)
    ensures ok <==>
      MatchesPattern(s) && 1 <= Month(s) <= 12 && 1 <= Day(s) <= DaysInMonth(Month(s))
  {
    if !MatchesPattern(s) then false
    else
      var month := Month(s);
      var day := Day(s);
      if day < 1 || day > 31 then false
      else if month < 1 || month > 12 then false
      else day <= MonthDays[month - 1]
  }

  /** The date part of an order date: its first ten characters (`substring(0, 10)`). */
  function GetDate(s: string): (r: string)
    ensures |r| == if |s| < 10 then |s| else 10
    ensures r <= s
  {
    if |s| < 10 then s else s[..10]
  }

  /** An accepted date has ten characters, so an order date matches it exactly when the
      order date begins with it. */
  lemma MatchesDateIffPrefix(date: string, orderDate: string)
    requires ValidateDate(date)
    ensures GetDate(orderDate) == date <==> date <= orderDate
  {
  }

  /** A worked case: the last day of February is accepted. */
  lemma AcceptedExample()
    ensures ValidateDate("2023-02-28")
  {
    assert MatchesPattern("2023-02-28");
  }

  /** Worked cases: a leap day, the 31st of a 30-day month, month 13, month 0 and day 0
      are refused. */
  lemma RefusedCalendarExamples()
    ensures !ValidateDate("2024-02-29")
    ensures !ValidateDate("2023-04-31")
    ensures !ValidateDate("2023-13-01")
    ensures !ValidateDate("2023-00-10")
    ensures !ValidateDate("2023-01-00")
  {
    assert MatchesPattern("2024-02-29") && Month("2024-02-29") == 2 && Day("2024-02-29") == 29;
    assert MatchesPattern("2023-04-31") && Month("2023-04-31") == 4 && Day("2023-04-31") == 31;
    assert MatchesPattern("2023-13-01") && Month("2023-13-01") == 13;
    assert MatchesPattern("2023-00-10") && Month("2023-00-10") == 0;
    assert MatchesPattern("2023-01-00") && Day("2023-01-00") == 0;
  }

  /** Worked cases: strings of the wrong shape are refused. */
  lemma RefusedShapeExamples()
    ensures !ValidateDate("not-a-date")
    ensures !ValidateDate("2023-1-01")
  {
  }
}
