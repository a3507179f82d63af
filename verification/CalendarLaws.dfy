/** The calendar and the names of days, pinned down by what everybody knows of them. */
module CalendarLaws {
  import opened Wrappers
  import opened Calendar
  import Decimal

  // ---- the dates of days

  lemma {:induction false} YearsGrow(y: int, z: int)
    requires y <= z
    ensures DaysBefore(y) <= DaysBefore(z)
    decreases z - y
  {
    hide DaysBefore, IsLeap;
    if y < z {
      YearLength(y);
      YearsGrow(y + 1, z);
    }
  }

  lemma {:induction false} MonthsGrow(m: nat, n: nat, leap: bool)
    requires m <= n
    ensures MonthsBefore(m, leap) <= MonthsBefore(n, leap)
  {
    if m < n {
      MonthsGrow(m, n - 1, leap);
    }
  }

  /** The year, month and day of month (counted from 0, 0 and 1) a day falls in. */
  ghost predicate FallsOn(days: int, y: int, m: int, day: int) {
    && 0 <= m < 12 && 1 <= day <= MonthLength(m, IsLeap(y))
    && DaysBefore(y) <= days < DaysBefore(y + 1)
    && days == DaysBefore(y) + MonthsBefore(m, IsLeap(y)) + day - 1
  }

  lemma DateFallsOn(days: nat)
    ensures var d := DateOf(days); FallsOn(days, d.year, d.month - 1, d.day)
  {
    hide DaysBefore, IsLeap, MonthLength, YearOf, MonthOf;
    FirstYear();
    var y := YearOf(days, 1970);
    var rest := days - DaysBefore(y);
    YearLength(y);
    YearIsMonths(IsLeap(y));
    var m := MonthOf(rest, 0, IsLeap(y));
    MonthEnds(m, IsLeap(y));
    assert DateOf(days) == Date(y, m + 1, rest - MonthsBefore(m, IsLeap(y)) + 1);
    hide MonthsBefore, DateOf;
  }

  lemma MonthEnds(m: nat, leap: bool)
    ensures MonthsBefore(m + 1, leap) == MonthsBefore(m, leap) + MonthLength(m, leap)
  {
  }

  /** It falls on one only. */
  lemma FallsOnOne(days: int, y: int, m: int, day: int, y': int, m': int, day': int)
    requires FallsOn(days, y, m, day) && FallsOn(days, y', m', day')
    ensures y == y' && m == m' && day == day'
  {
    hide DaysBefore, IsLeap, MonthLength, MonthsBefore;
    if y < y' { YearsGrow(y + 1, y'); }
    if y' < y { YearsGrow(y' + 1, y); }
    MonthEnds(m, IsLeap(y));
    MonthEnds(m', IsLeap(y));
    if m < m' { MonthsGrow(m + 1, m', IsLeap(y)); }
    if m' < m { MonthsGrow(m' + 1, m, IsLeap(y)); }
  }

  lemma DateIs(days: nat, y: int, m: int, day: int)
    requires FallsOn(days, y, m, day)
    ensures DateOf(days) == Date(y, m + 1, day)
  {
    hide DateOf, FallsOn;
    DateFallsOn(days);
    var d := DateOf(days);
    FallsOnOne(days, d.year, d.month - 1, d.day, y, m, day);
  }

  /** The first day is the first of January 1970. */
  lemma EpochIs(t: nat)
    requires t < 86400
    ensures GmTime(t) == Date(1970, 1, 1)
  {
    assert t / DAY == 0;
    DateIs(0, 1970, 0, 1);
  }

  /** The day after falls on the next day of the month, the first of the next month, or the first of the next year. */
  lemma NextFallsOn(days: int, y: int, m: int, day: int)
    requires FallsOn(days, y, m, day)
    ensures if day < MonthLength(m, IsLeap(y)) then FallsOn(days + 1, y, m, day + 1)
            else if m < 11 then FallsOn(days + 1, y, m + 1, 1)
            else FallsOn(days + 1, y + 1, 0, 1)
  {
    var leap := IsLeap(y);
    YearLength(y);
    YearLength(y + 1);
    YearIsMonths(leap);
    MonthEnds(m, leap);
    MonthsGrow(m + 1, 12, leap);
    MonthsGrow(0, m, leap);
    if m < 11 { MonthEnds(m + 1, leap); MonthsGrow(m + 2, 12, leap); }
    NoMonths(IsLeap(y + 1));
    LengthsArePositive();
    hide DaysBefore, IsLeap, MonthLength, MonthsBefore;
  }

  lemma NoMonths(leap: bool)
    ensures MonthsBefore(0, leap) == 0
  {
  }

  lemma LengthsArePositive()
    ensures forall m, leap :: MonthLength(m, leap) > 0
  {
  }

  lemma LengthIs(m: int, y: int)
    requires 0 <= m < 12
    ensures var leap := y % 4 == 0 && (y % 100 != 0 || y % 400 == 0);
            MonthLength(m, IsLeap(y)) == [31, if leap then 29 else 28, 31, 30, 31, 30, 31, 31, 30, 31, 30, 31][m]
  {
  }

  lemma NextDateIs(days: nat)
    ensures var d, e := DateOf(days), DateOf(days + 1);
            var last := MonthLength(d.month - 1, IsLeap(d.year));
            e == if d.day < last then Date(d.year, d.month, d.day + 1)
                 else if d.month < 12 then Date(d.year, d.month + 1, 1)
                 else Date(d.year + 1, 1, 1)
  {
    hide DateOf, FallsOn, MonthLength, IsLeap;
    var d := DateOf(days);
    var y, m, day := d.year, d.month - 1, d.day;
    DateFallsOn(days);
    NextFallsOn(days, y, m, day);
    if day < MonthLength(m, IsLeap(y)) {
      DateIs(days + 1, y, m, day + 1);
    } else if m < 11 {
      DateIs(days + 1, y, m + 1, 1);
    } else {
      DateIs(days + 1, y + 1, 0, 1);
    }
  }

  lemma NextDayBegins(t: nat)
    ensures GmTime(t) == DateOf(t / 86400) && GmTime(t + 86400) == DateOf(t / 86400 + 1)
  {
    assert (t + 86400) / DAY == t / DAY + 1;
    hide DateOf;
  }

  /**
    A day later the date is the next one of the calendar, by the lengths of the twelve months and the leap rule; with the
    first day's date that gives every time its date.
   */
  lemma DayStep(t: nat)
    ensures var d, e := GmTime(t), GmTime(t + 86400);
            var leap := d.year % 4 == 0 && (d.year % 100 != 0 || d.year % 400 == 0);
            var last := [31, if leap then 29 else 28, 31, 30, 31, 30, 31, 31, 30, 31, 30, 31][d.month - 1];
            e == if d.day < last then Date(d.year, d.month, d.day + 1)
                 else if d.month < 12 then Date(d.year, d.month + 1, 1)
                 else Date(d.year + 1, 1, 1)
  {
    hide DateOf, GmTime, TimeGm, DaysOf, MonthLength, IsLeap;
    NextDayBegins(t);
    NextDateIs(t / 86400);
    LengthIs(GmTime(t).month - 1, GmTime(t).year);
  }

  // ---- the times of dates, existing or not

  lemma MonthSplit(m: int)
    ensures (m + 12) / 12 == m / 12 + 1 && (m + 12) % 12 == m % 12
    ensures 0 <= m < 12 ==> m / 12 == 0 && m % 12 == m
  {
  }

  /** Twelve months are a year, and a day is 86400 seconds, whatever the numbers; time 0 is the start of 1970. */
  lemma TimeGmOverflows(y: int, m: int, day: int)
    ensures TimeGm(Date(1970, 1, 1)) == 0
    ensures TimeGm(Date(y, m + 12, day)) == TimeGm(Date(y + 1, m, day))
    ensures TimeGm(Date(y, m, day + 1)) == TimeGm(Date(y, m, day)) + 86400
  {
    hide DaysBefore, MonthsBefore, IsLeap;
    MonthSplit(m - 1);
    FirstYear();
    NoMonths(IsLeap(1970));
  }

  lemma FirstYear()
    ensures DaysBefore(1970) == 0
  {
  }

  lemma DaysOfMonth(y: int, m: int, day: int)
    requires 1 <= m <= 12
    ensures DaysOf(Date(y, m, day)) == DaysBefore(y) + MonthsBefore(m - 1, IsLeap(y)) + day - 1
  {
    MonthSplit(m - 1);
    hide DaysBefore, MonthsBefore, IsLeap;
  }

  /** From the first of a month to the first of the next it is as many days as the month has. */
  lemma TimeGmMonths(y: int, m: int)
    requires 1 <= m <= 12
    ensures var leap := y % 4 == 0 && (y % 100 != 0 || y % 400 == 0);
            var last := [31, if leap then 29 else 28, 31, 30, 31, 30, 31, 31, 30, 31, 30, 31][m - 1];
            TimeGm(Date(y, m + 1, 1)) == TimeGm(Date(y, m, 1)) + 86400 * last
  {
    hide DaysBefore, MonthsBefore, MonthLength, IsLeap, DaysOf;
    LengthIs(m - 1, y);
    MonthEnds(m - 1, IsLeap(y));
    DaysOfMonth(y, m, 1);
    if m < 12 {
      DaysOfMonth(y, m + 1, 1);
    } else {
      TimeGmOverflows(y, 1, 1);
      DaysOfMonth(y + 1, 1, 1);
      NoMonths(IsLeap(y + 1));
      YearLength(y);
      YearIsMonths(IsLeap(y));
    }
  }

  // ---- names

  lemma PadIs(n: nat)
    requires n < 100
    ensures Pad(n) == ['0' + (n / 10) as char, '0' + (n % 10) as char]
  {
    if n >= 10 {
      assert Decimal.Print(n) == Decimal.Print(n / 10) + [Decimal.Digit(n % 10)];
    }
  }

  /** A folder is named after the date: the year, and month and day in two digits each, with dashes between. */
  lemma FolderNameIs(t: nat)
    ensures var d := GmTime(t);
            FolderName(t) == Decimal.Print(d.year)
              + ['-', '0' + (d.month / 10) as char, '0' + (d.month % 10) as char,
                 '-', '0' + (d.day / 10) as char, '0' + (d.day % 10) as char]
  {
    hide DateOf, Pad, DaysOf, Decimal.Print;
    var d := GmTime(t);
    PadIs(d.month);
    PadIs(d.day);
  }

  lemma FirstFolderIs()
    ensures FolderName(0) == "1970-01-01"
  {
    hide GmTime, FolderName, TimeGm;
    EpochIs(0);
    FolderNameIs(0);
    YearText();
  }

  lemma YearText()
    ensures Decimal.Print(1970) == "1970"
  {
    assert Decimal.Print(1) == "1";
    assert Decimal.Print(19) == Decimal.Print(1) + [Decimal.Digit(9)] == "19";
    assert Decimal.Print(197) == Decimal.Print(19) + [Decimal.Digit(7)] == "197";
  }

  // ---- scanning

  /** White space before a number is skipped. */
  lemma SpaceIsSkipped(c: char, s: string)
    requires c == ' ' || c == '\t' || c == '\n' || c == '\U{b}' || c == '\U{c}' || c == '\r'
    ensures ScanInt([c] + s) == ScanInt(s)
  {
    assert ([c] + s)[1..] == s;
  }

  /** A sign is read with the digits right after it. */
  lemma SignIsRead(s: string)
    requires s != "" && '0' <= s[0] <= '9'
    ensures ScanInt(s).Some? && ScanInt("+" + s) == ScanInt(s)
    ensures ScanInt("-" + s) == Some((-ScanInt(s).value.0, ScanInt(s).value.1))
  {
    assert SkipSpace(s) == s && SkipSpace("+" + s) == "+" + s && SkipSpace("-" + s) == "-" + s;
    assert ("+" + s)[1..] == s && ("-" + s)[1..] == s;
    hide SkipSpace, Decimal.Value;
  }

  /** Anything else is no number, nor is a sign with no digit right after it. */
  lemma NoNumber(s: string)
    requires s == "" || !('0' <= s[0] <= '9')
    ensures s == "" || (s[0] != '+' && s[0] != '-' && s[0] != ' ' && !('\t' <= s[0] <= '\r')) ==> ScanInt(s) == None
    ensures ScanInt("+" + s) == None && ScanInt("-" + s) == None
  {
    assert SkipSpace("+" + s) == "+" + s && SkipSpace("-" + s) == "-" + s;
    assert ("+" + s)[1..] == s && ("-" + s)[1..] == s;
    hide Decimal.Value;
  }

  /** What must come between the numbers of a date is a dash and nothing else. */
  lemma NoDate(digits: string, rest: string)
    requires digits != "" && forall i :: 0 <= i < |digits| ==> '0' <= digits[i] <= '9'
    requires rest == "" || (rest[0] != '-' && !('0' <= rest[0] <= '9'))
    ensures FolderTime(digits + rest) == None
  {
    hide ScanInt, TimeGm;
    assert forall i :: 0 <= i < |digits| ==> Decimal.IsDigit(digits[i]);
    ScanDigits(digits, rest);
  }
}
