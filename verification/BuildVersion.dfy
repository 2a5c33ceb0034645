/** Chrome manifest versions from UTC build time stamps, with Date.UTC and its inverse as in ECMA-262, section 21.4. */
module BuildVersion {
  import opened Common

  datatype Fields = Fields(year: nat, month: nat, day: nat, hour: nat, minute: nat, second: nat)
  datatype Version = Version(a: nat, b: nat, c: nat, d: nat)

  // ---------- the signature ----------

  predicate IsDigit(c: char) { '0' <= c <= '9' }

  predicate AllDigits(s: string) { forall i :: 0 <= i < |s| ==> IsDigit(s[i]) }

  function Number(s: string): nat
    requires AllDigits(s)
  {
    if s == "" then 0 else 10 * Number(s[..|s| - 1]) + (s[|s| - 1] - '0') as nat
  }

  /** yyyymmddThhmmssZ */
  function Parse(s: string): Option<Fields> {
    if |s| == 16 && s[8] == 'T' && s[15] == 'Z' && (forall i :: 0 <= i < 15 && i != 8 ==> IsDigit(s[i])) then
      Some(Fields(Number(s[..4]), Number(s[4..6]), Number(s[6..8]), Number(s[9..11]), Number(s[11..13]), Number(s[13..15])))
    else None
  }

  // ---------- time values ----------

  const MS_PER_DAY := 86400000

  predicate Leap(y: int) { y % 4 == 0 && (y % 100 != 0 || y % 400 == 0) }

  function DaysInYear(y: int): int { if Leap(y) then 366 else 365 }

  function DayFromYear(y: int): int {
    365 * (y - 1970) + (y - 1969) / 4 - (y - 1901) / 100 + (y - 1601) / 400
  }

  /** The day in the year on which the month starts; months count from 0. */
  function MonthStart(leap: bool, m: nat): nat
    requires m <= 12
  {
    var days :=
      match m
      case 0 => 0 case 1 => 31 case 2 => 59 case 3 => 90 case 4 => 120 case 5 => 151 case 6 => 181
      case 7 => 212 case 8 => 243 case 9 => 273 case 10 => 304 case 11 => 334 case _ => 365;
    days + if leap && m >= 2 then 1 else 0
  }

  function DaysInMonth(y: int, m: nat): nat
    requires m < 12
  {
    if m == 1 then (if Leap(y) then 29 else 28) else if m in {3, 5, 8, 10} then 30 else 31
  }

  /** Months and days out of range carry over. */
  function MakeDay(year: int, month: int, date: int): int {
    var y := year + month / 12;
    DayFromYear(y) + MonthStart(Leap(y), month % 12) + date - 1
  }

  function MakeTime(hour: int, minute: int, second: int): int { hour * 3600000 + minute * 60000 + second * 1000 }

  /** Two-digit years are taken to be in the twentieth century. */
  function DateUTC(year: nat, month: int, date: int, hour: int, minute: int, second: int): int {
    MakeDay(if year <= 99 then 1900 + year else year, month, date) * MS_PER_DAY + MakeTime(hour, minute, second)
  }

  lemma Quarter(x: int)
    ensures (x + 1) / 4 == x / 4 + (if (x + 1) % 4 == 0 then 1 else 0)
  {
  }

  lemma Hundredth(x: int)
    ensures (x + 1) / 100 == x / 100 + (if (x + 1) % 100 == 0 then 1 else 0)
  {
  }

  lemma FourHundredth(x: int)
    ensures (x + 1) / 400 == x / 400 + (if (x + 1) % 400 == 0 then 1 else 0)
  {
  }

  /** A remainder is the one number in range that differs from y by a multiple. */
  lemma Remainder4(y: int, q: int, r: int)
    requires 0 <= r < 4 && y == 4 * q + r
    ensures y % 4 == r
  {
  }

  lemma Remainder100(y: int, q: int, r: int)
    requires 0 <= r < 100 && y == 100 * q + r
    ensures y % 100 == r
  {
  }

  lemma Remainder400(y: int, q: int, r: int)
    requires 0 <= r < 400 && y == 400 * q + r
    ensures y % 400 == r
  {
  }

  lemma SameRemainders(y: int)
    ensures (y - 1968) % 4 == y % 4 && (y - 1900) % 100 == y % 100 && (y - 1600) % 400 == y % 400
  {
    Remainder4(y - 1968, y / 4 - 492, y % 4);
    Remainder100(y - 1900, y / 100 - 19, y % 100);
    Remainder400(y - 1600, y / 400 - 4, y % 400);
  }

  lemma Divisible(y: int)
    ensures y % 400 == 0 ==> y % 100 == 0
    ensures y % 100 == 0 ==> y % 4 == 0
  {
    if y % 400 == 0 { Remainder100(y, 4 * (y / 400), 0); }
    if y % 100 == 0 { Remainder4(y, 25 * (y / 100), 0); }
  }

  lemma YearLength(y: int)
    ensures DayFromYear(y + 1) == DayFromYear(y) + DaysInYear(y)
  {
    Quarter(y - 1969);
    Hundredth(y - 1901);
    FourHundredth(y - 1601);
    SameRemainders(y);
    Divisible(y);
  }

  lemma {:induction false} YearsAscend(y: int, z: int)
    requires y <= z
    ensures DayFromYear(z) - DayFromYear(y) >= 365 * (z - y)
    decreases z - y
  {
    if y < z {
      YearsAscend(y, z - 1);
      YearLength(z - 1);
    }
  }

  /** The year a day lies in, searched upwards from y. */
  function YearOf(day: int, y: int): (r: int)
    requires DayFromYear(y) <= day
    ensures y <= r && DayFromYear(r) <= day < DayFromYear(r + 1)
    decreases day - DayFromYear(y)
  {
    YearLength(y);
    if day < DayFromYear(y + 1) then y else YearOf(day, y + 1)
  }

  function MonthOf(dayInYear: nat, leap: bool): (m: nat)
    requires dayInYear < 365 + (if leap then 1 else 0)
    ensures m < 12 && MonthStart(leap, m) <= dayInYear < MonthStart(leap, m + 1)
  {
    if dayInYear < MonthStart(leap, 1) then 0
    else if dayInYear < MonthStart(leap, 2) then 1
    else if dayInYear < MonthStart(leap, 3) then 2
    else if dayInYear < MonthStart(leap, 4) then 3
    else if dayInYear < MonthStart(leap, 5) then 4
    else if dayInYear < MonthStart(leap, 6) then 5
    else if dayInYear < MonthStart(leap, 7) then 6
    else if dayInYear < MonthStart(leap, 8) then 7
    else if dayInYear < MonthStart(leap, 9) then 8
    else if dayInYear < MonthStart(leap, 10) then 9
    else if dayInYear < MonthStart(leap, 11) then 10
    else 11
  }

  /** What the getters of a Date report; the month counts from 0. */
  datatype Civil = Civil(year: int, month: nat, date: int, hour: int, minute: int, second: int)

  function CivilOf(t: int): Civil
    requires DayFromYear(0) <= t / MS_PER_DAY
  {
    var day := t / MS_PER_DAY;
    var y := YearOf(day, 0);
    YearLength(y);
    var inYear := day - DayFromYear(y);
    var m := MonthOf(inYear, Leap(y));
    Civil(y, m, inYear - MonthStart(Leap(y), m) + 1, t / 3600000 % 24, t / 60000 % 60, t / 1000 % 60)
  }

  // ---------- the version ----------

  function Instant(f: Fields): int { DateUTC(f.year, f.month - 1, f.day, f.hour, f.minute, f.second) }

  lemma InstantInRange(f: Fields)
    ensures DayFromYear(0) <= Instant(f) / MS_PER_DAY
  {
    var year := if f.year <= 99 then 1900 + f.year else f.year;
    var y := year + (f.month - 1) / 12;
    assert y >= 99;
    YearsAscend(0, y);
    var day := MakeDay(year, f.month - 1, f.day);
    var time := MakeTime(f.hour, f.minute, f.second);
    assert day >= DayFromYear(0) && time >= 0;
    assert Instant(f) == day * MS_PER_DAY + time;
    assert Instant(f) / MS_PER_DAY >= day;
  }

  function ChromeVersion(signature: string): Option<Version> {
    var parsed := Parse(signature);
    if parsed.None? then None
    else
      var f := parsed.value;
      InstantInRange(f);
      var c := CivilOf(Instant(f));
      if c.year != f.year || c.month != f.month - 1 || c.date != f.day
         || c.hour != f.hour || c.minute != f.minute || c.second != f.second then None
      else Some(Version(f.year, f.month * 100 + f.day, f.hour * 100 + f.minute, f.second))
  }

  // ---------- which signatures are accepted ----------

  predicate IsCalendarTime(f: Fields) {
    && 1 <= f.month <= 12 && 1 <= f.day <= DaysInMonth(f.year, f.month - 1)
    && f.hour < 24 && f.minute < 60 && f.second < 60
  }

  lemma MonthLength(y: int, m: nat)
    requires m < 12
    ensures MonthStart(Leap(y), m + 1) == MonthStart(Leap(y), m) + DaysInMonth(y, m)
    ensures MonthStart(Leap(y), 12) == DaysInYear(y)
  {
  }

  lemma {:induction false} MonthsAscend(leap: bool, m: nat, n: nat)
    requires m <= n <= 12
    ensures MonthStart(leap, m) <= MonthStart(leap, n)
    decreases n - m
  {
    if m < n {
      MonthsAscend(leap, m, n - 1);
    }
  }

  function DayNumber(f: Fields): int
    requires 1 <= f.month <= 12
  {
    DayFromYear(f.year) + MonthStart(Leap(f.year), f.month - 1) + f.day - 1
  }

  function TimeOfDay(f: Fields): int { MakeTime(f.hour, f.minute, f.second) }

  lemma InstantParts(f: Fields)
    requires IsCalendarTime(f) && f.year >= 100
    ensures Instant(f) == DayNumber(f) * MS_PER_DAY + TimeOfDay(f)
    ensures 0 <= TimeOfDay(f) < MS_PER_DAY
    ensures Instant(f) / MS_PER_DAY == DayNumber(f)
    ensures DayFromYear(f.year) <= DayNumber(f) < DayFromYear(f.year + 1)
    ensures MonthStart(Leap(f.year), f.month - 1) <= DayNumber(f) - DayFromYear(f.year) < MonthStart(Leap(f.year), f.month)
  {
    DayLiesInMonth(f);
    MonthsAscend(Leap(f.year), f.month, 12);
    MonthLength(f.year, f.month - 1);
    YearLength(f.year);
    InstantIs(f);
    Quotient(DayNumber(f), TimeOfDay(f));
  }

  lemma InstantIs(f: Fields)
    requires 1 <= f.month <= 12 && f.year >= 100
    ensures Instant(f) == DayNumber(f) * MS_PER_DAY + TimeOfDay(f)
  {
    assert (f.month - 1) / 12 == 0 && (f.month - 1) % 12 == f.month - 1;
  }

  lemma DayLiesInMonth(f: Fields)
    requires IsCalendarTime(f)
    ensures MonthStart(Leap(f.year), f.month - 1) <= DayNumber(f) - DayFromYear(f.year) < MonthStart(Leap(f.year), f.month)
  {
    MonthLength(f.year, f.month - 1);
  }

  lemma Quotient(q: int, r: int)
    requires 0 <= r < MS_PER_DAY
    ensures (q * MS_PER_DAY + r) / MS_PER_DAY == q
  {
  }

  lemma SameYear(day: int, y: int, z: int)
    requires DayFromYear(y) <= day < DayFromYear(y + 1) && DayFromYear(z) <= day < DayFromYear(z + 1)
    ensures y == z
  {
    if y < z {
      YearsAscend(y + 1, z);
    } else if z < y {
      YearsAscend(z + 1, y);
    }
  }

  lemma SameMonth(day: nat, leap: bool, m: nat, n: nat)
    requires m < 12 && n < 12
    requires MonthStart(leap, m) <= day < MonthStart(leap, m + 1) && MonthStart(leap, n) <= day < MonthStart(leap, n + 1)
    ensures m == n
  {
    if m < n {
      MonthsAscend(leap, m + 1, n);
    } else if n < m {
      MonthsAscend(leap, n + 1, m);
    }
  }

  lemma SecondPart(k: int, second: nat)
    requires second < 60
    ensures (1000 * (60 * k + second)) / 1000 % 60 == second
  {
  }

  lemma MinutePart(k: int, minute: nat, rest: nat)
    requires minute < 60 && rest < 60000
    ensures (60000 * (60 * k + minute) + rest) / 60000 % 60 == minute
  {
    assert (60000 * (60 * k + minute) + rest) / 60000 == 60 * k + minute;
  }

  lemma HourPart(k: int, hour: nat, rest: nat)
    requires hour < 24 && rest < 3600000
    ensures (3600000 * (24 * k + hour) + rest) / 3600000 % 24 == hour
  {
    assert (3600000 * (24 * k + hour) + rest) / 3600000 == 24 * k + hour;
  }

  lemma ClockParts(day: int, hour: nat, minute: nat, second: nat)
    requires hour < 24 && minute < 60 && second < 60
    ensures var t := day * MS_PER_DAY + MakeTime(hour, minute, second);
            t / 3600000 % 24 == hour && t / 60000 % 60 == minute && t / 1000 % 60 == second
  {
    SecondPart(day * 1440 + hour * 60 + minute, second);
    MinutePart(day * 24 + hour, minute, second * 1000);
    HourPart(day, hour, minute * 60000 + second * 1000);
    var t := day * MS_PER_DAY + MakeTime(hour, minute, second);
    assert t == 1000 * (60 * (day * 1440 + hour * 60 + minute) + second);
    assert t == 60000 * (60 * (day * 24 + hour) + minute) + second * 1000;
    assert t == 3600000 * (24 * day + hour) + (minute * 60000 + second * 1000);
  }

  lemma CivilDate(t: int, y: int, m: nat)
    requires m < 12 && DayFromYear(0) <= t / MS_PER_DAY
    requires DayFromYear(y) <= t / MS_PER_DAY < DayFromYear(y + 1)
    requires MonthStart(Leap(y), m) <= t / MS_PER_DAY - DayFromYear(y) < MonthStart(Leap(y), m + 1)
    ensures CivilOf(t).year == y && CivilOf(t).month == m
    ensures CivilOf(t).date == t / MS_PER_DAY - DayFromYear(y) - MonthStart(Leap(y), m) + 1
  {
    var day := t / MS_PER_DAY;
    SameYear(day, y, YearOf(day, 0));
    YearLength(y);
    SameMonth(day - DayFromYear(y), Leap(y), m, MonthOf(day - DayFromYear(y), Leap(y)));
  }

  /** The getters give back every calendar date and time. */
  lemma GettersInvertDateUTC(f: Fields)
    requires IsCalendarTime(f) && f.year >= 100
    ensures DayFromYear(0) <= Instant(f) / MS_PER_DAY
    ensures CivilOf(Instant(f)) == Civil(f.year, f.month - 1, f.day, f.hour, f.minute, f.second)
  {
    InstantInRange(f);
    InstantParts(f);
    CivilDate(Instant(f), f.year, f.month - 1);
    ClockParts(DayNumber(f), f.hour, f.minute, f.second);
  }

  /** The getters never report anything but a calendar date and time. */
  lemma GettersReportCalendar(t: int)
    requires DayFromYear(0) <= t / MS_PER_DAY
    ensures var c := CivilOf(t);
            && 1 <= c.date <= DaysInMonth(c.year, c.month)
            && 0 <= c.hour < 24 && 0 <= c.minute < 60 && 0 <= c.second < 60
  {
    var c := CivilOf(t);
    MonthLength(c.year, c.month);
  }

  lemma TwoDigitYearIsLost(f: Fields)
    requires f.year <= 99
    ensures DayFromYear(0) <= Instant(f) / MS_PER_DAY
    ensures CivilOf(Instant(f)).year != f.year
  {
    InstantInRange(f);
    var y := 1900 + f.year + (f.month - 1) / 12;
    assert y >= 1899;
    var day := MakeDay(1900 + f.year, f.month - 1, f.day);
    var time := MakeTime(f.hour, f.minute, f.second);
    assert Instant(f) == day * MS_PER_DAY + time;
    assert Instant(f) / MS_PER_DAY >= day >= DayFromYear(y) - 1;
    YearsAscend(100, y);
    var c := CivilOf(Instant(f)).year;
    if c <= 99 {
      YearsAscend(c + 1, 100);
    }
  }

  /** A signature gets a version exactly if it has the right form and names a real date and time after the year 99. */
  lemma AcceptedIff(signature: string)
    ensures ChromeVersion(signature).Some? <==>
        var p := Parse(signature); p.Some? && IsCalendarTime(p.value) && p.value.year >= 100
  {
    var p := Parse(signature);
    if p.Some? {
      var f := p.value;
      InstantInRange(f);
      GettersReportCalendar(Instant(f));
      if f.year <= 99 {
        TwoDigitYearIsLost(f);
      } else if IsCalendarTime(f) {
        GettersInvertDateUTC(f);
      }
    }
  }

  // ---------- versions order as instants do ----------

  /** How Chrome compares versions. */
  predicate Less(v: Version, w: Version) {
    || v.a < w.a
    || (v.a == w.a && (v.b < w.b || (v.b == w.b && (v.c < w.c || (v.c == w.c && v.d < w.d)))))
  }

  function VersionOf(f: Fields): Version { Version(f.year, f.month * 100 + f.day, f.hour * 100 + f.minute, f.second) }

  predicate SoonerInYear(f: Fields, g: Fields) {
    f.month < g.month || (f.month == g.month && f.day < g.day)
  }

  lemma EarlierInYear(f: Fields, g: Fields)
    requires IsCalendarTime(f) && IsCalendarTime(g) && f.year == g.year && SoonerInYear(f, g)
    ensures DayNumber(f) < DayNumber(g)
  {
    if f.month < g.month {
      MonthLength(f.year, f.month - 1);
      MonthsAscend(Leap(f.year), f.month, g.month - 1);
    }
  }

  lemma EarlierDay(f: Fields, g: Fields)
    requires IsCalendarTime(f) && IsCalendarTime(g) && f.year >= 100 && g.year >= 100
    requires f.year < g.year || (f.year == g.year && SoonerInYear(f, g))
    ensures DayNumber(f) < DayNumber(g)
  {
    if f.year < g.year {
      InstantParts(f);
      InstantParts(g);
      YearsAscend(f.year + 1, g.year);
    } else {
      EarlierInYear(f, g);
    }
  }

  lemma EarlierDayIsEarlier(d: int, t: int, e: int, u: int)
    requires d < e && 0 <= t < MS_PER_DAY && 0 <= u
    ensures d * MS_PER_DAY + t < e * MS_PER_DAY + u
  {
  }

  /** Comparing versions compares the fields one after the other. */
  lemma LessComparesFields(f: Fields, g: Fields)
    requires IsCalendarTime(f) && IsCalendarTime(g) && Less(VersionOf(f), VersionOf(g))
    ensures f.year < g.year || (f.year == g.year && SoonerInYear(f, g))
        || (f.year == g.year && f.month == g.month && f.day == g.day && TimeOfDay(f) < TimeOfDay(g))
  {
    assert f.day < 100 && g.day < 100;
  }

  lemma LessIsEarlier(f: Fields, g: Fields)
    requires IsCalendarTime(f) && IsCalendarTime(g) && f.year >= 100 && g.year >= 100
    requires Less(VersionOf(f), VersionOf(g))
    ensures Instant(f) < Instant(g)
  {
    InstantParts(f);
    InstantParts(g);
    if f.year == g.year && f.month == g.month && f.day == g.day {
      LaterThatDay(f, g);
    } else {
      LessComparesFields(f, g);
      EarlierDay(f, g);
      EarlierDayIsEarlier(DayNumber(f), TimeOfDay(f), DayNumber(g), TimeOfDay(g));
    }
  }

  lemma LaterThatDay(f: Fields, g: Fields)
    requires IsCalendarTime(f) && IsCalendarTime(g) && Less(VersionOf(f), VersionOf(g))
    requires f.year == g.year && f.month == g.month && f.day == g.day
    ensures DayNumber(f) == DayNumber(g) && TimeOfDay(f) < TimeOfDay(g)
  {
  }

  lemma SameVersionSameFields(f: Fields, g: Fields)
    requires IsCalendarTime(f) && IsCalendarTime(g) && VersionOf(f) == VersionOf(g)
    ensures f == g
  {
  }

  /** On accepted signatures versions compare exactly as the instants they name, and no component exceeds 9999. */
  lemma VersionsOrderAsInstants(s: string, t: string)
    requires ChromeVersion(s).Some? && ChromeVersion(t).Some?
    ensures var v, w := ChromeVersion(s).value, ChromeVersion(t).value;
            var x, y := Instant(Parse(s).value), Instant(Parse(t).value);
            && (Less(v, w) <==> x < y)
            && (v == w <==> x == y)
            && v.a <= 9999 && v.b <= 9999 && v.c <= 9999 && v.d <= 9999
  {
    AcceptedIff(s);
    AcceptedIff(t);
    VersionIs(s);
    VersionIs(t);
    FourDigits(s[..4]);
    FieldsOrder(Parse(s).value, Parse(t).value);
  }

  lemma FieldsOrder(f: Fields, g: Fields)
    requires IsCalendarTime(f) && IsCalendarTime(g) && f.year >= 100 && g.year >= 100
    ensures Less(VersionOf(f), VersionOf(g)) <==> Instant(f) < Instant(g)
    ensures VersionOf(f) == VersionOf(g) <==> Instant(f) == Instant(g)
  {
    if Less(VersionOf(f), VersionOf(g)) {
      LessIsEarlier(f, g);
    } else if Less(VersionOf(g), VersionOf(f)) {
      LessIsEarlier(g, f);
    } else {
      SameVersionSameFields(f, g);
    }
  }

  lemma VersionIs(s: string)
    requires ChromeVersion(s).Some?
    ensures Parse(s).Some? && ChromeVersion(s).value == VersionOf(Parse(s).value)
  {
  }

  lemma FourDigits(s: string)
    requires AllDigits(s) && |s| == 4
    ensures Number(s) <= 9999
  {
    assert Number(s[..3]) <= 999 by {
      assert s[..3][..2] == s[..2] && s[..2][..1] == s[..1] && s[..1][..0] == "";
      assert Number(s[..1]) <= 9;
      assert Number(s[..2]) <= 99;
    }
  }

  // ---------- the signature can be read back ----------

  /** The last w decimal digits of n. */
  function Digits(n: nat, w: nat): string {
    if w == 0 then "" else Digits(n / 10, w - 1) + ['0' + (n % 10) as char]
  }

  lemma {:induction false} DigitsInvertNumber(s: string)
    requires AllDigits(s)
    ensures Digits(Number(s), |s|) == s
  {
    if s != "" {
      var init, last := s[..|s| - 1], s[|s| - 1];
      DigitsInvertNumber(init);
      var d := (last - '0') as nat;
      assert Number(s) == 10 * Number(init) + d && d < 10;
      assert Number(s) / 10 == Number(init) && Number(s) % 10 == d;
      assert s == init + [last];
    }
  }

  /** The time stamp a version comes from. */
  function Stamp(v: Version): string {
    Digits(v.a, 4) + Digits(v.b / 100, 2) + Digits(v.b % 100, 2) + "T"
    + Digits(v.c / 100, 2) + Digits(v.c % 100, 2) + Digits(v.d, 2) + "Z"
  }

  lemma Hundreds(q: nat, r: nat)
    requires r < 100
    ensures (q * 100 + r) / 100 == q && (q * 100 + r) % 100 == r
  {
  }

  lemma StampOf(f: Fields)
    requires f.day < 100 && f.minute < 100
    ensures Stamp(VersionOf(f)) == Digits(f.year, 4) + Digits(f.month, 2) + Digits(f.day, 2) + "T"
                                   + Digits(f.hour, 2) + Digits(f.minute, 2) + Digits(f.second, 2) + "Z"
  {
    Hundreds(f.month, f.day);
    Hundreds(f.hour, f.minute);
  }

  lemma ParsedDigits(s: string)
    requires Parse(s).Some?
    ensures var f := Parse(s).value;
      s == Digits(f.year, 4) + Digits(f.month, 2) + Digits(f.day, 2) + "T"
           + Digits(f.hour, 2) + Digits(f.minute, 2) + Digits(f.second, 2) + "Z"
  {
    DigitsInvertNumber(s[..4]);
    DigitsInvertNumber(s[4..6]);
    DigitsInvertNumber(s[6..8]);
    DigitsInvertNumber(s[9..11]);
    DigitsInvertNumber(s[11..13]);
    DigitsInvertNumber(s[13..15]);
    Reassembled(s);
  }

  /** A version tells its signature, component by component. */
  lemma VersionTellsSignature(s: string)
    requires ChromeVersion(s).Some?
    ensures Stamp(ChromeVersion(s).value) == s
  {
    AcceptedIff(s);
    VersionIs(s);
    StampOf(Parse(s).value);
    ParsedDigits(s);
  }

  lemma Reassembled(s: string)
    requires |s| == 16 && s[8] == 'T' && s[15] == 'Z'
    ensures s[..4] + s[4..6] + s[6..8] + "T" + s[9..11] + s[11..13] + s[13..15] + "Z" == s
  {
  }
}
