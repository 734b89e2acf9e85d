/** Calendar dates and the two textual date formats the bot uses: answers are
    checked with `strptime(value, "%d/%m/%Y")` and reports print dates with
    `strftime("%d-%m-%Y")`. */
module Dates {
  import opened Wrappers
  import opened Text

  datatype Date = Date(year: int, month: int, day: int)

  /** A `datetime.datetime`; only the fields the report range uses. */
  datatype DateTime = DateTime(date: Date, hour: int, minute: int, second: int, microsecond: int)

  predicate IsLeapYear(y: int) {
    y % 4 == 0 && (y % 100 != 0 || y % 400 == 0)
  }

  function DaysInMonth(y: int, m: int): (n: int)
    requires 1 <= m <= 12
    ensures 28 <= n <= 31
    ensures m == 2 ==> (n == 29 <==> IsLeapYear(y))
  {
    if m == 2 then (if IsLeapYear(y) then 29 else 28)
    else if m == 4 || m == 6 || m == 9 || m == 11 then 30
    else 31
  }

  /** The dates `datetime.date` can represent (MINYEAR 1 to MAXYEAR 9999). */
  predicate IsValidDate(d: Date) {
    && 1 <= d.year <= 9999
    && 1 <= d.month <= 12
    && 1 <= d.day <= DaysInMonth(d.year, d.month)
  }

  predicate IsValidDateTime(t: DateTime) {
    && IsValidDate(t.date)
    && 0 <= t.hour < 24 && 0 <= t.minute < 60 && 0 <= t.second < 60
    && 0 <= t.microsecond < 1000000
  }

  /** `datetime.time.min` and `datetime.time.max` on a given date. */
  function StartOfDay(d: Date): DateTime { DateTime(d, 0, 0, 0, 0) }
  function EndOfDay(d: Date): DateTime { DateTime(d, 23, 59, 59, 999999) }

  predicate DateLe(a: Date, b: Date) {
    a.year < b.year
    || (a.year == b.year && a.month < b.month)
    || (a.year == b.year && a.month == b.month && a.day <= b.day)
  }

  /** Chronological order on date-times: by date, then by time of day. */
  predicate DateTimeLe(a: DateTime, b: DateTime) {
    if a.date != b.date then DateLe(a.date, b.date)
    else
      a.hour < b.hour
      || (a.hour == b.hour && a.minute < b.minute)
      || (a.hour == b.hour && a.minute == b.minute && a.second < b.second)
      || (a.hour == b.hour && a.minute == b.minute && a.second == b.second && a.microsecond <= b.microsecond)
  }

  // ---------------------------------------------------------------------
  // strptime: "%d<sep>%m<sep>%Y"
  // ---------------------------------------------------------------------

  /** Python's `strptime` with directives `%d`, `%m` and `%Y` joined by `sep`:
      the whole string must be three `sep`-separated groups of ASCII digits,
      day and month one or two digits long, the year exactly four, and the
      three numbers must name a real calendar date (leap years included).
      None stands for the ValueError strptime raises. */
  function ParseDate(s: string, sep: char): (r: Option<Date>)
    requires !IsDigit(sep)
    ensures r.Some? ==> IsValidDate(r.value)
  {
    var parts := Split(s, sep);
    if |parts| != 3 then None
    else
      var dd, mm, yyyy := parts[0], parts[1], parts[2];
      if !(AllDigits(dd) && AllDigits(mm) && AllDigits(yyyy)) then None
      else if !(1 <= |dd| <= 2 && 1 <= |mm| <= 2 && |yyyy| == 4) then None
      else
        var d := Date(DigitsValue(yyyy), DigitsValue(mm), DigitsValue(dd));
        if IsValidDate(d) then Some(d) else None
  }

  /** The check applied to a date-of-birth answer: `strptime(value, "%d/%m/%Y")`
      succeeds. */
  predicate IsSlashDate(s: string) {
    ParseDate(s, '/').Some?
  }

  // ---------------------------------------------------------------------
  // strftime: "%d<sep>%m<sep>%Y"
  // ---------------------------------------------------------------------

  /** `strftime` with `%d`, `%m`, `%Y` joined by `sep`: two-digit day and
      month, four-digit year, all zero-padded. */
  function FormatDate(d: Date, sep: char): (r: string)
    requires IsValidDate(d)
    ensures |r| == 10 && r[2] == sep && r[5] == sep
    ensures AllDigits(r[..2]) && DigitsValue(r[..2]) == d.day
    ensures AllDigits(r[3..5]) && DigitsValue(r[3..5]) == d.month
    ensures AllDigits(r[6..]) && DigitsValue(r[6..]) == d.year
  {
    var dd, mm, yyyy := Digits(d.day, 2), Digits(d.month, 2), Digits(d.year, 4);
    var r := dd + [sep] + mm + [sep] + yyyy;
    assert r[..2] == dd && r[3..5] == mm && r[6..] == yyyy;
    r
  }

  /** Every date strftime prints is ten characters with the separator at
      positions 2 and 5. */
  lemma FormatDateShape(d: Date, sep: char)
    requires IsValidDate(d)
    ensures |FormatDate(d, sep)| == 10
    ensures FormatDate(d, sep)[2] == sep && FormatDate(d, sep)[5] == sep
    ensures forall i :: 0 <= i < 10 && i != 2 && i != 5 ==> IsDigit(FormatDate(d, sep)[i])
  {
  }

  /** strptime reads back exactly the date strftime wrote, for any separator
      that is not a digit. */
  lemma {:induction false} ParseFormatRoundTrip(d: Date, sep: char)
    requires IsValidDate(d) && !IsDigit(sep)
    ensures ParseDate(FormatDate(d, sep), sep) == Some(d)
  {
    var dd, mm, yyyy := Digits(d.day, 2), Digits(d.month, 2), Digits(d.year, 4);
    assert sep !in dd && sep !in mm && sep !in yyyy;
    SplitDateFields(dd, mm, yyyy, sep);
  }

  /** The three fields of a `sep`-joined date string. */
  lemma {:induction false} SplitDateFields(dd: string, mm: string, yyyy: string, sep: char)
    requires sep !in dd && sep !in mm && sep !in yyyy
    ensures Split(dd + [sep] + mm + [sep] + yyyy, sep) == [dd, mm, yyyy]
  {
    var parts := [dd, mm, yyyy];
    assert Join([sep], parts) == dd + [sep] + mm + [sep] + yyyy by {
      assert Join([sep], parts[2..]) == yyyy;
      assert Join([sep], parts[1..]) == mm + [sep] + yyyy;
    }
    SplitJoin(parts, sep);
  }

  /** What strptime makes of three `sep`-free fields joined by `sep`. */
  lemma ParseDateFields(dd: string, mm: string, yyyy: string, sep: char)
    requires !IsDigit(sep) && sep !in dd && sep !in mm && sep !in yyyy
    ensures ParseDate(dd + [sep] + mm + [sep] + yyyy, sep) ==
      if !(AllDigits(dd) && AllDigits(mm) && AllDigits(yyyy)) then None
      else if !(1 <= |dd| <= 2 && 1 <= |mm| <= 2 && |yyyy| == 4) then None
      else
        var d := Date(DigitsValue(yyyy), DigitsValue(mm), DigitsValue(dd));
        if IsValidDate(d) then Some(d) else None
  {
    SplitDateFields(dd, mm, yyyy, sep);
  }

  /** `"01/01/1990"` is a valid date of birth. */
  lemma AcceptsPaddedDate()
    ensures ParseDate("01/01/1990", '/') == Some(Date(1990, 1, 1))
  {
    var dd, mm, yyyy := "01", "01", "1990";
    assert "01/01/1990" == dd + ['/'] + mm + ['/'] + yyyy;
    assert DigitsValue(dd) == 1 by { assert dd[..1] == "0"; }
    assert DigitsValue(yyyy) == 1990 by {
      assert yyyy[..3] == "199" && "199"[..2] == "19" && "19"[..1] == "1";
    }
    ParseDateFields(dd, mm, yyyy, '/');
  }

  /** Day and month may be written with a single digit. */
  lemma AcceptsUnpaddedDate()
    ensures ParseDate("1/1/1990", '/') == Some(Date(1990, 1, 1))
  {
    var dd, mm, yyyy := "1", "1", "1990";
    assert "1/1/1990" == dd + ['/'] + mm + ['/'] + yyyy;
    assert DigitsValue(dd) == 1 by { assert dd[..0] == ""; }
    assert DigitsValue(yyyy) == 1990 by {
      assert yyyy[..3] == "199" && "199"[..2] == "19" && "19"[..1] == "1";
    }
    ParseDateFields(dd, mm, yyyy, '/');
  }

  /** A separator other than `/` is rejected. */
  lemma RejectsDashes()
    ensures ParseDate("1-1-2022", '/') == None
  {
    assert '/' !in "1-1-2022";
  }

  /** Day 32 is rejected. */
  lemma RejectsDay32()
    ensures ParseDate("32/01/1990", '/') == None
  {
    var dd, mm, yyyy := "32", "01", "1990";
    assert "32/01/1990" == dd + ['/'] + mm + ['/'] + yyyy;
    assert DigitsValue(dd) == 32 by { assert dd[..1] == "3"; }
    ParseDateFields(dd, mm, yyyy, '/');
  }

  /** 1900 is not a leap year, so the 29th of February 1900 is rejected. */
  lemma RejectsFeb29In1900()
    ensures ParseDate("29/02/1900", '/') == None
  {
    var dd, mm, yyyy := "29", "02", "1900";
    assert "29/02/1900" == dd + ['/'] + mm + ['/'] + yyyy;
    assert DigitsValue(mm) == 2 by { assert mm[..1] == "0"; }
    assert DigitsValue(dd) == 29 by { assert dd[..1] == "2"; }
    assert !IsLeapYear(1900) && DaysInMonth(1900, 2) == 28;
    assert !IsValidDate(Date(1900, 2, 29));
    assert DigitsValue(yyyy) == 1900 by {
      assert yyyy[..3] == "190" && "190"[..2] == "19" && "19"[..1] == "1";
    }
    ParseDateFields(dd, mm, yyyy, '/');
  }
}
