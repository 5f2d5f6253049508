/** Calendar dates as the pages read them from a JavaScript `Date`, and the fixed-width numbers
    their text formats are made of. */
module Dates {
  import opened Text

  /** The calendar fields `getDate()`, `getMonth() + 1` and `getFullYear()` read from a parsed date. */
  datatype CalendarDate = CalendarDate(day: nat, month: nat, year: int)

  predicate ValidDate(d: CalendarDate) {
    1 <= d.day <= 31 && 1 <= d.month <= 12
  }

  /** The year of the era that date-fns prints for `yyyy`: years up to 0 count back from 1 BC,
      so year 0 is written as 1 and year -5 as 6, with no sign. */
  function EraYear(year: int): nat {
    if year > 0 then year else 1 - year
  }

  /** `padStart(2, '0')` of a number. */
  function TwoDigits(n: nat): string {
    PadStart(NatToString(n), 2, '0')
  }

  /** A number below 100 is written as exactly two digits that read back as it. */
  lemma TwoDigitsValue(n: nat)
    requires n < 100
    ensures |TwoDigits(n)| == 2 && AllDigits(TwoDigits(n)) && DigitsValue(TwoDigits(n)) == n
  {
    assert Pow10(1) == 10 && Pow10(2) == 100;
    if n < 10 { NatToStringLength(n, 1); } else { NatToStringLength(n, 2); }
    PadStartDigits(n, 2);
  }

  /** Where the parts of `dd<sep>mm<sep>y` sit when each of `dd` and `mm` has two characters. */
  lemma SeparatorLayout(dd: string, sep: char, mm: string, y: string)
    requires |dd| == 2 && |mm| == 2
    ensures var s := dd + [sep] + mm + [sep] + y;
      |s| == 6 + |y| && s[2] == sep && s[5] == sep && s[..2] == dd && s[3..5] == mm && s[6..] == y
  {
    var s := dd + [sep] + mm + [sep] + y;
    assert s[..2] == dd;
    assert s[3..5] == mm;
    assert s[6..] == y;
  }

  /** `format(date, "yyyy-MM-dd")`: the era year padded to four digits, then month and day. */
  function FormatYmd(d: CalendarDate): string {
    PadStart(NatToString(EraYear(d.year)), 4, '0') + "-" + TwoDigits(d.month) + "-" + TwoDigits(d.day)
  }

  /** A valid date whose era year has at most four digits is written as ten characters whose
      parts read back as its month, its day and its year (a year up to 0 as 1 minus it). */
  lemma FormatYmdParts(d: CalendarDate)
    requires ValidDate(d) && -9999 < d.year < 10000
    ensures var s := FormatYmd(d);
      |s| == 10 && s[4] == '-' && s[7] == '-'
      && AllDigits(s[..4]) && DigitsValue(s[..4]) == (if d.year > 0 then d.year else 1 - d.year)
      && AllDigits(s[5..7]) && DigitsValue(s[5..7]) == d.month
      && AllDigits(s[8..]) && DigitsValue(s[8..]) == d.day
  {
    var yyyy := PadStart(NatToString(EraYear(d.year)), 4, '0');
    FourDigitsValue(EraYear(d.year));
    TwoDigitsValue(d.month);
    TwoDigitsValue(d.day);
    DashLayout(yyyy, TwoDigits(d.month), TwoDigits(d.day));
  }

  lemma FourDigitsValue(n: nat)
    requires n < 10000
    ensures var s := PadStart(NatToString(n), 4, '0');
      |s| == 4 && AllDigits(s) && DigitsValue(s) == n
  {
    assert Pow10(1) == 10 && Pow10(2) == 100 && Pow10(3) == 1000 && Pow10(4) == 10000;
    if n < 10 { NatToStringLength(n, 1); }
    else if n < 100 { NatToStringLength(n, 2); }
    else if n < 1000 { NatToStringLength(n, 3); }
    else { NatToStringLength(n, 4); }
    PadStartDigits(n, 4);
  }

  lemma DashLayout(yyyy: string, mm: string, dd: string)
    requires |yyyy| == 4 && |mm| == 2 && |dd| == 2
    ensures var s := yyyy + "-" + mm + "-" + dd;
      |s| == 10 && s[4] == '-' && s[7] == '-' && s[..4] == yyyy && s[5..7] == mm && s[8..] == dd
  {
    var s := yyyy + "-" + mm + "-" + dd;
    assert s[..4] == yyyy;
    assert s[5..7] == mm;
    assert s[8..] == dd;
  }
}
