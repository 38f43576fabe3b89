/** Calendar dates as Python's `datetime.date` holds them, and their `dd/mm/yyyy` text. */
module Dates {
  import opened Results
  import opened Text

  datatype CalendarDate = CalendarDate(day: int, month: int, year: int)

  predicate IsLeapYear(year: int) {
    year % 4 == 0 && (year % 100 != 0 || year % 400 == 0)
  }

  function DaysInMonth(month: int, year: int): int
    requires 1 <= month <= 12
  {
    if month == 2 then (if IsLeapYear(year) then 29 else 28)
    else if month == 4 || month == 6 || month == 9 || month == 11 then 30
    else 31
  }

  /** The checks of the `date(year, month, day)` constructor. */
  predicate IsValidDate(day: int, month: int, year: int) {
    1 <= year <= 9999 && 1 <= month <= 12 && 1 <= day <= DaysInMonth(month, year)
  }

  /** A `date` object: it cannot hold an invalid day, month or year. */
  type Date = d: CalendarDate | IsValidDate(d.day, d.month, d.year) witness CalendarDate(1, 1, 1)

  /** `date(year, month, day)`, raising ValueError on an invalid combination. */
  function MakeDate(year: int, month: int, day: int): (r: Result<Date>)
    ensures r.Ok? <==> IsValidDate(day, month, year)
    ensures r.Ok? ==> r.value.day == day && r.value.month == month && r.value.year == year
  {
    if IsValidDate(day, month, year) then Ok(CalendarDate(day, month, year)) else Err(InvalidDate)
  }

  /** `f"{d.day:02}/{d.month:02}/{d.year:04}"`. */
  function FormatDate(d: Date): (r: string)
    ensures |r| == 10 && r[2] == '/' && r[5] == '/' && IsDigit(r[0])
    ensures SingleLine(r) && '|' !in r && IsTrimmed(r)
  {
    assert Pow10(2) == 100 && Pow10(4) == 10000;
    DecimalBelow(d.day, 2);
    DecimalBelow(d.month, 2);
    DecimalBelow(d.year, 4);
    var dd, mm, yyyy := ZeroPad(d.day, 2), ZeroPad(d.month, 2), ZeroPad(d.year, 4);
    SlashedShape(dd, mm, yyyy);
    dd + "/" + mm + "/" + yyyy
  }

  /** Two, two and four digits with slashes between them: one line of ten characters, trimmed. */
  lemma SlashedShape(dd: string, mm: string, yyyy: string)
    requires AllDigits(dd) && AllDigits(mm) && AllDigits(yyyy)
    requires |dd| == 2 && |mm| == 2 && |yyyy| == 4
    ensures var r := dd + "/" + mm + "/" + yyyy;
      |r| == 10 && r[2] == '/' && r[5] == '/' && IsDigit(r[0]) && SingleLine(r) && '|' !in r && IsTrimmed(r)
  {
    var r := dd + "/" + mm + "/" + yyyy;
    assert forall k :: 0 <= k < 10 ==> IsDigit(r[k]) || r[k] == '/' by {
      forall k | 0 <= k < 10 ensures IsDigit(r[k]) || r[k] == '/' {
        if k < 2 {
          assert r[k] == dd[k];
        } else if 2 < k < 5 {
          assert r[k] == mm[k - 3];
        } else if 5 < k {
          assert r[k] == yyyy[k - 6];
        }
      }
    }
  }

  /** Single digits are padded with a zero and four-digit years are written as they are. */
  lemma FormatDateExamples()
    ensures FormatDate(CalendarDate(4, 3, 2020)) == "04/03/2020"
    ensures FormatDate(CalendarDate(5, 4, 2021)) == "05/04/2021"
    ensures FormatDate(CalendarDate(6, 5, 2022)) == "06/05/2022"
  {
    ShortDate(CalendarDate(4, 3, 2020), 2, 0, 2, 0, "04/03/2020");
    ShortDate(CalendarDate(5, 4, 2021), 2, 0, 2, 1, "05/04/2021");
    ShortDate(CalendarDate(6, 5, 2022), 2, 0, 2, 2, "06/05/2022");
  }

  /** A date with a one-digit day and month and a four-digit year, spelled out. */
  lemma ShortDate(d: Date, a: nat, b: nat, c: nat, e: nat, t: string)
    requires d.day < 10 && d.month < 10
    requires 1 <= a < 10 && b < 10 && c < 10 && e < 10 && d.year == a * 1000 + b * 100 + c * 10 + e
    requires t == ['0', DigitChar(d.day), '/', '0', DigitChar(d.month), '/', DigitChar(a), DigitChar(b), DigitChar(c), DigitChar(e)]
    ensures FormatDate(d) == t
  {
    PaddedDigit(d.day);
    PaddedDigit(d.month);
    FullYear(d.year, a, b, c, e);
    SlashedText(ZeroPad(d.day, 2), ZeroPad(d.month, 2), ZeroPad(d.year, 4), t);
  }

  lemma PaddedDigit(n: nat)
    requires 1 <= n < 10
    ensures ZeroPad(n, 2) == ['0', DigitChar(n)]
  {
    assert Zeros(1) == ['0'];
  }

  lemma FullYear(n: nat, a: nat, b: nat, c: nat, d: nat)
    requires 1 <= a < 10 && b < 10 && c < 10 && d < 10 && n == a * 1000 + b * 100 + c * 10 + d
    ensures ZeroPad(n, 4) == [DigitChar(a), DigitChar(b), DigitChar(c), DigitChar(d)]
  {
    assert Decimal(a * 10 + b) == [DigitChar(a), DigitChar(b)];
    assert Decimal((a * 10 + b) * 10 + c) == [DigitChar(a), DigitChar(b), DigitChar(c)];
    assert n == ((a * 10 + b) * 10 + c) * 10 + d;
  }

  lemma SlashedText(dd: string, mm: string, yyyy: string, t: string)
    requires |dd| == 2 && |mm| == 2 && |yyyy| == 4 && |t| == 10
    requires t[..2] == dd && t[2] == '/' && t[3..5] == mm && t[5] == '/' && t[6..] == yyyy
    ensures dd + "/" + mm + "/" + yyyy == t
  {
    assert t == t[..2] + [t[2]] + t[3..5] + [t[5]] + t[6..];
  }
}
