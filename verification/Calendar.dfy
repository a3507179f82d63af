/**
  Day folders: the proleptic Gregorian calendar in both directions, the folder name printed for a time, and the scan that
  turns a folder name back into a time.
 */
module Calendar {
  import opened Wrappers
  import Decimal

  const DAY: nat := 86400

  /** A calendar date; months count from 1. After scanning it need not exist. */
  datatype Date = Date(year: int, month: int, day: int)

  predicate IsLeap(y: int) {
    y % 4 == 0 && (y % 100 != 0 || y % 400 == 0)
  }

  /** Days from the first of January 1970 to the first of January of year `y`. */
  function DaysBefore(y: int): int {
    365 * (y - 1970) + (y - 1) / 4 - (y - 1) / 100 + (y - 1) / 400 - 477
  }

  function MonthLength(m: int, leap: bool): int {
    if m == 1 then (if leap then 29 else 28)
    else if m == 3 || m == 5 || m == 8 || m == 10 then 30
    else 31
  }

  /** Days of the year before month `m`, counted from 0. */
  function MonthsBefore(m: nat, leap: bool): int {
    if m == 0 then 0 else MonthsBefore(m - 1, leap) + MonthLength(m - 1, leap)
  }

  lemma YearIsMonths(leap: bool)
    ensures MonthsBefore(12, leap) == if leap then 366 else 365
  {
    assert MonthsBefore(1, leap) == 31;
    assert MonthsBefore(2, leap) == if leap then 60 else 59;
    assert MonthsBefore(4, leap) == MonthsBefore(2, leap) + 61;
    assert MonthsBefore(6, leap) == MonthsBefore(4, leap) + 61;
    assert MonthsBefore(8, leap) == MonthsBefore(6, leap) + 62;
    assert MonthsBefore(10, leap) == MonthsBefore(8, leap) + 61;
  }

  /** Days to a date, which need not exist: months and days overflow into years and months. */
  function DaysOf(d: Date): int {
    var m := d.month - 1;
    var y := d.year + m / 12;
    DaysBefore(y) + MonthsBefore(m % 12, IsLeap(y)) + d.day - 1
  }

  function TimeGm(d: Date): int {
    DAY * DaysOf(d)
  }

  lemma Quotient4(y: int)
    ensures y / 4 == (y - 1) / 4 + if y % 4 == 0 then 1 else 0
  {
  }

  lemma Quotient100(y: int)
    ensures y / 100 == (y - 1) / 100 + if y % 100 == 0 then 1 else 0
  {
  }

  lemma Quotient400(y: int)
    ensures y / 400 == (y - 1) / 400 + if y % 400 == 0 then 1 else 0
  {
  }

  lemma MultiplesOf100(y: int)
    requires y % 100 == 0
    ensures y % 4 == 0
  {
    assert y == 4 * (25 * (y / 100));
  }

  lemma MultiplesOf400(y: int)
    requires y % 400 == 0
    ensures y % 100 == 0
  {
    assert y == 100 * (4 * (y / 400));
  }

  lemma {:induction false} YearLength(y: int)
    ensures DaysBefore(y + 1) == DaysBefore(y) + (if IsLeap(y) then 366 else 365)
  {
    var f, h, q := y % 4 == 0, y % 100 == 0, y % 400 == 0;
    Quotient4(y);
    Quotient100(y);
    Quotient400(y);
    if h { MultiplesOf100(y); }
    if q { MultiplesOf400(y); }
    assert DaysBefore(y + 1) - DaysBefore(y) == 365 + (if f then 1 else 0) - (if h then 1 else 0) + (if q then 1 else 0);
  }

  /** The year a day falls in, searched upwards. */
  function YearOf(days: int, y: int): (r: int)
    requires DaysBefore(y) <= days
    ensures y <= r && DaysBefore(r) <= days < DaysBefore(r + 1)
    decreases days - DaysBefore(y)
  {
    YearLength(y);
    if days < DaysBefore(y + 1) then y else YearOf(days, y + 1)
  }

  /** The month a day of a year falls in. */
  function MonthOf(day: int, m: nat, leap: bool): (r: nat)
    requires m < 12 && MonthsBefore(m, leap) <= day < MonthsBefore(12, leap)
    ensures m <= r < 12 && MonthsBefore(r, leap) <= day < MonthsBefore(r + 1, leap)
    decreases 12 - m
  {
    if day < MonthsBefore(m + 1, leap) then m
    else
      assert m != 11;
      MonthOf(day, m + 1, leap)
  }

  /** The date of a day. */
  function DateOf(days: nat): (d: Date)
    ensures d.year >= 1970 && 1 <= d.month <= 12 && 1 <= d.day <= MonthLength(d.month - 1, IsLeap(d.year))
    ensures DaysOf(d) == days
  {
    var y := YearOf(days, 1970);
    var leap := IsLeap(y);
    var rest := days - DaysBefore(y);
    YearLength(y);
    YearIsMonths(leap);
    var m := MonthOf(rest, 0, leap);
    assert m / 12 == 0 && m % 12 == m;
    Date(y, m + 1, rest - MonthsBefore(m, leap) + 1)
  }

  /** The date of a time. */
  function GmTime(t: nat): (d: Date)
    ensures d.year >= 1970 && 1 <= d.month <= 12 && 1 <= d.day <= MonthLength(d.month - 1, IsLeap(d.year))
    ensures TimeGm(d) == t - t % DAY
  {
    DateOf(t / DAY)
  }

  // ---- names

  function Pad(n: nat): string
    requires n < 100
  {
    if n < 10 then "0" + Decimal.Print(n) else Decimal.Print(n)
  }

  function FolderName(t: nat): string {
    var d := GmTime(t);
    Decimal.Print(d.year) + "-" + Pad(d.month) + "-" + Pad(d.day)
  }

  // ---- scanning

  predicate IsSpace(c: char) {
    c == ' ' || '\t' <= c <= '\r'
  }

  function SkipSpace(s: string): string {
    if s != "" && IsSpace(s[0]) then SkipSpace(s[1..]) else s
  }

  /** How many digits `s` starts with. */
  function DigitRun(s: string): (n: nat)
    ensures n <= |s| && forall i :: 0 <= i < n ==> Decimal.IsDigit(s[i])
  {
    if s != "" && Decimal.IsDigit(s[0]) then 1 + DigitRun(s[1..]) else 0
  }

  /** A sign, digits; the number and what follows it. */
  function ScanSigned(u: string): Option<(int, string)> {
    var signed := u != "" && (u[0] == '-' || u[0] == '+');
    var v := if signed then u[1..] else u;
    var n := DigitRun(v);
    if n == 0 then None
    else
      var value: int := Decimal.Value(v[..n]);
      Some((if signed && u[0] == '-' then -value else value, v[n..]))
  }

  /** One `%d`: white space, then the number. */
  function ScanInt(s: string): Option<(int, string)> {
    ScanSigned(SkipSpace(s))
  }

  function ScanDash(s: string): Option<string> {
    if s != "" && s[0] == '-' then Some(s[1..]) else None
  }

  /** The three numbers of `%d-%d-%d`; whatever follows the third is ignored. */
  function ScanDate(s: string): Option<Date> {
    var (year, a) :- ScanInt(s);
    var b :- ScanDash(a);
    var (month, c) :- ScanInt(b);
    var d :- ScanDash(c);
    var (day, _) :- ScanInt(d);
    Some(Date(year, month, day))
  }

  /** The time a directory entry is dated with, if its name starts with a date. */
  function FolderTime(name: string): Option<int> {
    var d :- ScanDate(name);
    Some(TimeGm(d))
  }

  lemma {:induction false} DigitRunOf(digits: string, rest: string)
    requires forall i :: 0 <= i < |digits| ==> Decimal.IsDigit(digits[i])
    requires rest == "" || !Decimal.IsDigit(rest[0])
    ensures DigitRun(digits + rest) == |digits|
  {
    if digits == "" {
      assert digits + rest == rest;
    } else {
      assert (digits + rest)[1..] == digits[1..] + rest;
      DigitRunOf(digits[1..], rest);
    }
  }

  /** Digits are scanned back as the number they stand for, up to the first character that is none. */
  lemma {:induction false} ScanDigits(digits: string, rest: string)
    requires digits != "" && forall i :: 0 <= i < |digits| ==> Decimal.IsDigit(digits[i])
    requires rest == "" || !Decimal.IsDigit(rest[0])
    ensures ScanInt(digits + rest) == Some((Decimal.Value(digits), rest))
  {
    var s := digits + rest;
    assert s[0] == digits[0] && Decimal.IsDigit(digits[0]);
    assert SkipSpace(s) == s;
    DigitRunOf(digits, rest);
    assert s[..|digits|] == digits && s[|digits|..] == rest;
  }

  lemma PadValue(n: nat)
    requires n < 100
    ensures Pad(n) != "" && forall i :: 0 <= i < |Pad(n)| ==> Decimal.IsDigit(Pad(n)[i])
    ensures Decimal.Value(Pad(n)) == n
  {
    Decimal.ValueOfPrint(n);
    if n < 10 {
      assert Decimal.Print(n) == [Decimal.Digit(n)];
      assert Pad(n) == ['0', Decimal.Digit(n)];
      assert Pad(n)[..1] == ['0'] && ['0'][..0] == "";
    }
  }

  /** A printed date, whatever follows it, scans back as itself. */
  lemma ScanOfPrinted(y: nat, m: nat, d: nat, rest: string)
    requires m < 100 && d < 100 && (rest == "" || !Decimal.IsDigit(rest[0]))
    ensures ScanDate(Decimal.Print(y) + "-" + Pad(m) + "-" + Pad(d) + rest) == Some(Date(y, m, d))
  {
    hide Pad, Decimal.Print, Decimal.Value, ScanInt;
    var a, b, c := Decimal.Print(y), Pad(m), Pad(d);
    var s3 := c + rest;
    var s2 := b + ("-" + s3);
    var s1 := a + ("-" + s2);
    assert a + "-" + b + "-" + c + rest == s1;
    Decimal.ValueOfPrint(y);
    PadValue(m);
    PadValue(d);
    ScanDigits(a, "-" + s2);
    ScanDigits(b, "-" + s3);
    ScanDigits(c, rest);
    assert ("-" + s2)[1..] == s2 && ("-" + s3)[1..] == s3;
  }

  // ---- what follows a date makes no difference

  predicate StartsOther(t: string) {
    t != "" && !Decimal.IsDigit(t[0])
  }

  lemma {:induction false} SkipSpaceAppend(s: string, t: string)
    requires SkipSpace(s) != ""
    ensures SkipSpace(s + t) == SkipSpace(s) + t
  {
    if s != "" && IsSpace(s[0]) {
      assert (s + t)[1..] == s[1..] + t;
      SkipSpaceAppend(s[1..], t);
    }
  }

  lemma {:induction false} DigitRunAppend(s: string, t: string)
    requires StartsOther(t)
    ensures DigitRun(s + t) == DigitRun(s)
  {
    if s == "" {
      assert s + t == t;
    } else {
      assert (s + t)[1..] == s[1..] + t;
      DigitRunAppend(s[1..], t);
    }
  }

  lemma ScanSignedAppend(u: string, t: string)
    requires StartsOther(t) && ScanSigned(u).Some?
    ensures u != "" && ScanSigned(u + t) == Some((ScanSigned(u).value.0, ScanSigned(u).value.1 + t))
  {
    NoDigits();
    hide DigitRun, Decimal.Value;
    var v := if u[0] == '-' || u[0] == '+' then u[1..] else u;
    assert (u + t)[1..] == u[1..] + t;
    DigitRunAppend(v, t);
    SliceAppend(v, t, DigitRun(v));
  }

  lemma ScanIntAppend(s: string, t: string)
    requires StartsOther(t) && ScanInt(s).Some?
    ensures ScanInt(s + t) == Some((ScanInt(s).value.0, ScanInt(s).value.1 + t))
  {
    hide SkipSpace, ScanSigned;
    ScanSignedAppend(SkipSpace(s), t);
    SkipSpaceAppend(s, t);
  }

  lemma SliceAppend(v: string, t: string, n: nat)
    requires n <= |v|
    ensures (v + t)[..n] == v[..n] && (v + t)[n..] == v[n..] + t
  {
  }

  lemma NoDigits()
    ensures DigitRun("") == 0
  {
  }

  lemma ScanDashAppend(s: string, t: string)
    requires ScanDash(s).Some?
    ensures ScanDash(s + t) == Some(ScanDash(s).value + t)
  {
    assert (s + t)[1..] == s[1..] + t;
  }

  /** A dated name stays dated the same with anything but a digit after it. */
  lemma {:induction false} FolderTimeAppend(s: string, t: string)
    requires StartsOther(t) && FolderTime(s).Some?
    ensures FolderTime(s + t) == FolderTime(s)
  {
    hide ScanInt, ScanDash, TimeGm, StartsOther;
    var a := ScanInt(s).value.1;
    var b := ScanDash(a).value;
    var c := ScanInt(b).value.1;
    var d := ScanDash(c).value;
    ScanIntAppend(s, t);
    ScanDashAppend(a, t);
    ScanIntAppend(b, t);
    ScanDashAppend(c, t);
    ScanIntAppend(d, t);
  }

  // ---- the names of day folders

  /** For every time, the name printed for its day folder is dated with the start of that day, its archive's too. */
  lemma {:induction false} FolderNameRoundTrips(t: nat)
    ensures FolderTime(FolderName(t)) == Some(t - t % DAY)
    ensures FolderTime(FolderName(t) + ".tgz") == Some(t - t % DAY)
  {
    hide DateOf, ScanDate, Pad, TimeGm, Decimal.Print;
    var d := GmTime(t);
    var name := Decimal.Print(d.year) + "-" + Pad(d.month) + "-" + Pad(d.day);
    assert name + "" == name;
    ScanOfPrinted(d.year, d.month, d.day, "");
    ScanOfPrinted(d.year, d.month, d.day, ".tgz");
  }

  /** So two times share a folder exactly when they fall on the same day. */
  lemma {:induction false} SameFolderIff(t: nat, u: nat)
    ensures FolderName(t) == FolderName(u) <==> t / DAY == u / DAY
  {
    hide FolderTime, DateOf;
    FolderNameRoundTrips(t);
    FolderNameRoundTrips(u);
  }
}
