/**
 Reading a container's log: timestamps in the part of section 5.6 of RFC 3339 that Docker
 writes, kept exact to the nanosecond, and the scan for a finished graceful shutdown.
 */
module ShutdownLog {
  import opened Prelude

  // ---------------------------------------------------------------------------
  // The text of a timestamp
  // ---------------------------------------------------------------------------

  /** A zone other than Z: a sign, hours and minutes. */
  datatype Zone = Zone(east: bool, hours: int, minutes: int)

  /** A timestamp as it is written; `fraction` holds its digits, `zone` is absent for Z. */
  datatype Stamp = Stamp(
    year: int, month: int, day: int, hour: int, minute: int, second: int,
    fraction: string, zone: Option<Zone>)

  predicate Digit(c: char) {
    '0' <= c <= '9'
  }

  predicate Digits(s: string) {
    forall i | 0 <= i < |s| :: Digit(s[i])
  }

  function Value(c: char): int
    requires Digit(c)
  {
    c as int - '0' as int
  }

  function Char(n: int): (c: char)
    requires 0 <= n < 10
    ensures Digit(c) && Value(c) == n
  {
    (n + '0' as int) as char
  }

  /** The number a string of digits writes. */
  function Number(s: string): (n: int)
    requires Digits(s)
    ensures n >= 0
  {
    if s == [] then 0 else 10 * Number(s[..|s| - 1]) + Value(s[|s| - 1])
  }

  /** The digits of a number, as many as asked for. */
  ghost function Decimal(n: nat, digits: nat): (s: string)
    ensures |s| == digits && Digits(s)
  {
    if digits == 0 then "" else Decimal(n / 10, digits - 1) + [Char(n % 10)]
  }

  /** A number that has that many digits is read back from them. */
  lemma {:induction false} DecimalIsRead(n: nat, digits: nat)
    requires n < Pow10(digits)
    ensures Number(Decimal(n, digits)) == n
  {
    if digits > 0 {
      DecimalIsRead(n / 10, digits - 1);
      assert Decimal(n, digits)[..digits - 1] == Decimal(n / 10, digits - 1);
    }
  }

  function Two(n: int): string
    requires 0 <= n < 100
  {
    [Char(n / 10), Char(n % 10)]
  }

  function Four(n: int): string
    requires 0 <= n < 10000
  {
    Two(n / 100) + Two(n % 100)
  }

  function ReadTwo(t: string, at: nat): int
    requires at + 2 <= |t| && Digit(t[at]) && Digit(t[at + 1])
  {
    10 * Value(t[at]) + Value(t[at + 1])
  }

  predicate TwoAt(t: string, at: nat) {
    at + 2 <= |t| && Digit(t[at]) && Digit(t[at + 1])
  }

  /** Whole seconds are written in the first 19 characters. */
  predicate WholeShape(t: string) {
    && |t| == 19
    && TwoAt(t, 0) && TwoAt(t, 2) && t[4] == '-' && TwoAt(t, 5) && t[7] == '-' && TwoAt(t, 8)
    && t[10] == 'T'
    && TwoAt(t, 11) && t[13] == ':' && TwoAt(t, 14) && t[16] == ':' && TwoAt(t, 17)
  }

  /** The length of the digits a string starts with. */
  function LeadingDigits(t: string): (n: nat)
    ensures n <= |t| && Digits(t[..n]) && (n < |t| ==> !Digit(t[n]))
  {
    if t == [] || !Digit(t[0]) then 0
    else
      var rest := LeadingDigits(t[1..]);
      assert t[..rest + 1] == [t[0]] + t[1..][..rest];
      rest + 1
  }

  function ReadZone(t: string): Option<Option<Zone>> {
    if t == "Z" then Some(None)
    else if |t| == 6 && t[0] in {'+', '-'} && TwoAt(t, 1) && t[3] == ':' && TwoAt(t, 4) then
      Some(Some(Zone(t[0] == '+', ReadTwo(t, 1), ReadTwo(t, 4))))
    else None
  }

  /** The fraction's digits, and what follows them. */
  function SplitFraction(t: string): Option<(string, string)> {
    if t == [] || t[0] != '.' then Some(([], t))
    else
      var n := LeadingDigits(t[1..]);
      if 1 <= n <= 9 then Some((t[1..n + 1], t[n + 1..])) else None
  }

  function Parse(t: string): Option<Stamp> {
    if |t| < 19 || !WholeShape(t[..19]) then None
    else
      var whole, split := t[..19], SplitFraction(t[19..]);
      if split.None? then None
      else
        var zone := ReadZone(split.value.1);
        if zone.None? then None
        else Some(Stamp(
          100 * ReadTwo(whole, 0) + ReadTwo(whole, 2), ReadTwo(whole, 5), ReadTwo(whole, 8),
          ReadTwo(whole, 11), ReadTwo(whole, 14), ReadTwo(whole, 17), split.value.0, zone.value))
  }

  /** A stamp whose parts have as many digits as the text gives them. */
  predicate Written(s: Stamp) {
    && 0 <= s.year < 10000 && 0 <= s.month < 100 && 0 <= s.day < 100
    && 0 <= s.hour < 100 && 0 <= s.minute < 100 && 0 <= s.second < 100
    && Digits(s.fraction) && |s.fraction| <= 9
    && (s.zone.Some? ==> 0 <= s.zone.value.hours < 100 && 0 <= s.zone.value.minutes < 100)
  }

  function Whole(s: Stamp): string
    requires Written(s)
  {
    Four(s.year) + "-" + Two(s.month) + "-" + Two(s.day) + "T"
    + Two(s.hour) + ":" + Two(s.minute) + ":" + Two(s.second)
  }

  function Tail(s: Stamp): string
    requires Written(s)
  {
    (if s.fraction == [] then "" else "." + s.fraction) + Suffix(s.zone)
  }

  function Suffix(zone: Option<Zone>): string
    requires zone.Some? ==> 0 <= zone.value.hours < 100 && 0 <= zone.value.minutes < 100
  {
    if zone.None? then "Z"
    else [if zone.value.east then '+' else '-'] + Two(zone.value.hours) + ":" + Two(zone.value.minutes)
  }

  function Render(s: Stamp): string
    requires Written(s)
  {
    Whole(s) + Tail(s)
  }

  lemma ZoneReads(zone: Option<Zone>)
    requires zone.Some? ==> 0 <= zone.value.hours < 100 && 0 <= zone.value.minutes < 100
    ensures ReadZone(Suffix(zone)) == Some(zone)
    ensures Suffix(zone) != [] && !Digit(Suffix(zone)[0]) && Suffix(zone)[0] != '.'
  {
  }

  lemma {:induction false} LeadingDigitsOf(digits: string, rest: string)
    requires Digits(digits) && (rest != [] ==> !Digit(rest[0]))
    ensures LeadingDigits(digits + rest) == |digits|
  {
    var t := digits + rest;
    if digits != [] {
      assert t[1..] == digits[1..] + rest;
      LeadingDigitsOf(digits[1..], rest);
    }
  }

  lemma TailReads(s: Stamp)
    requires Written(s)
    ensures SplitFraction(Tail(s)) == Some((s.fraction, Suffix(s.zone)))
  {
    ZoneReads(s.zone);
    if s.fraction == [] {
      assert Tail(s) == Suffix(s.zone);
    } else {
      var t := Tail(s);
      assert t[1..] == s.fraction + Suffix(s.zone);
      LeadingDigitsOf(s.fraction, Suffix(s.zone));
      assert t[1..|s.fraction| + 1] == s.fraction && t[|s.fraction| + 1..] == Suffix(s.zone);
    }
  }

  lemma WholeReads(s: Stamp)
    requires Written(s)
    ensures WholeShape(Whole(s))
    ensures var w := Whole(s);
      && 100 * ReadTwo(w, 0) + ReadTwo(w, 2) == s.year
      && ReadTwo(w, 5) == s.month && ReadTwo(w, 8) == s.day
      && ReadTwo(w, 11) == s.hour && ReadTwo(w, 14) == s.minute && ReadTwo(w, 17) == s.second
  {
    var w := Whole(s);
    assert w[0] == Two(s.year / 100)[0] && w[1] == Two(s.year / 100)[1];
    assert w[2] == Two(s.year % 100)[0] && w[3] == Two(s.year % 100)[1];
  }

  /** Every stamp is read back from its text. */
  lemma RenderedIsParsed(s: Stamp)
    requires Written(s)
    ensures Parse(Render(s)) == Some(s)
  {
    WholeReads(s);
    TailReads(s);
    ZoneReads(s.zone);
    var t := Render(s);
    assert t[..19] == Whole(s) && t[19..] == Tail(s);
  }

  lemma TwoWrites(t: string, at: nat)
    requires TwoAt(t, at)
    ensures Two(ReadTwo(t, at)) == t[at..at + 2]
  {
    var a, b := Value(t[at]), Value(t[at + 1]);
    assert (10 * a + b) / 10 == a && (10 * a + b) % 10 == b;
    assert Char(a) == t[at] && Char(b) == t[at + 1];
  }

  lemma ZoneWrites(t: string)
    requires ReadZone(t).Some?
    ensures var zone := ReadZone(t).value;
      && (zone.Some? ==> 0 <= zone.value.hours < 100 && 0 <= zone.value.minutes < 100)
      && Suffix(zone) == t
  {
    if t != "Z" {
      TwoWrites(t, 1);
      TwoWrites(t, 4);
      assert t == [t[0]] + t[1..3] + ":" + t[4..6];
    }
  }

  lemma WholeWrites(t: string, s: Stamp)
    requires WholeShape(t) && Written(s)
    requires 100 * ReadTwo(t, 0) + ReadTwo(t, 2) == s.year
    requires ReadTwo(t, 5) == s.month && ReadTwo(t, 8) == s.day
    requires ReadTwo(t, 11) == s.hour && ReadTwo(t, 14) == s.minute && ReadTwo(t, 17) == s.second
    ensures Whole(s) == t
  {
    TwoWrites(t, 0);
    TwoWrites(t, 2);
    TwoWrites(t, 5);
    TwoWrites(t, 8);
    TwoWrites(t, 11);
    TwoWrites(t, 14);
    TwoWrites(t, 17);
    assert s.year / 100 == ReadTwo(t, 0) && s.year % 100 == ReadTwo(t, 2);
    assert t == t[0..2] + t[2..4] + "-" + t[5..7] + "-" + t[8..10] + "T"
             + t[11..13] + ":" + t[14..16] + ":" + t[17..19];
  }

  /** Nothing else parses: every text that is read is the text of the stamp it gives. */
  lemma ParsedIsRendered(t: string)
    requires Parse(t).Some?
    ensures Written(Parse(t).value) && Render(Parse(t).value) == t
  {
    var s, whole, rest := Parse(t).value, t[..19], t[19..];
    var split := SplitFraction(rest).value;
    if s.fraction != [] {
      var n := LeadingDigits(rest[1..]);
      assert s.fraction == rest[1..][..n];
    }
    ZoneWrites(split.1);
    WholeWrites(whole, s);
    assert rest == (if s.fraction == [] then "" else "." + s.fraction) + split.1;
    assert t == whole + rest;
  }

  // ---------------------------------------------------------------------------
  // The instant a stamp names
  // ---------------------------------------------------------------------------

  predicate Leap(year: int) {
    year % 4 == 0 && (year % 100 != 0 || year % 400 == 0)
  }

  function DaysInMonth(year: int, month: int): int {
    if month == 2 then if Leap(year) then 29 else 28
    else if month in {4, 6, 9, 11} then 30
    else 31
  }

  function DaysBeforeMonth(year: int, month: int): (days: int)
    requires 1 <= month <= 12
    ensures days >= 0
  {
    if month == 1 then 0 else DaysBeforeMonth(year, month - 1) + DaysInMonth(year, month - 1)
  }

  function DaysInYear(year: int): int {
    if Leap(year) then 366 else 365
  }

  /** Days from the start of year 1, in the proleptic Gregorian calendar. */
  function DaysBeforeYear(year: int): int
    requires 1 <= year
  {
    (year - 1) * 365 + (year - 1) / 4 - (year - 1) / 100 + (year - 1) / 400
  }

  function DayNumber(s: Stamp): int
    requires Real(s)
  {
    DaysBeforeYear(s.year) + DaysBeforeMonth(s.year, s.month) + s.day - 1
  }

  /** The stamps that name an instant: a calendar date, a time of day, and a zone within a day. */
  predicate Real(s: Stamp) {
    && Written(s)
    && 1 <= s.year && 1 <= s.month <= 12 && 1 <= s.day <= DaysInMonth(s.year, s.month)
    && s.hour < 24 && s.minute < 60 && s.second < 60
    && (s.zone.Some? ==> s.zone.value.hours * 60 + s.zone.value.minutes < 24 * 60)
  }

  /** The day number of the first of January 1970. */
  const EPOCH: int := DaysBeforeYear(1970)

  /** Minutes that the zone is ahead of UTC. */
  function OffsetMinutes(zone: Option<Zone>): int {
    if zone.None? then 0
    else
      var minutes := zone.value.hours * 60 + zone.value.minutes;
      if zone.value.east then minutes else -minutes
  }

  function Pow10(n: nat): int {
    if n == 0 then 1 else 10 * Pow10(n - 1)
  }

  /** The fraction as nanoseconds: its digits, filled up with zeros to nine. */
  function Padded(fraction: string): string
    requires |fraction| <= 9
    ensures |Padded(fraction)| == 9
    decreases 9 - |fraction|
  {
    if |fraction| == 9 then fraction else Padded(fraction + "0")
  }

  lemma Associates(a: int, b: int, c: int)
    ensures (a * b) * c == a * (b * c)
  {
  }

  lemma OneMoreZero(fraction: string)
    requires Digits(fraction)
    ensures Digits(fraction + "0") && Number(fraction + "0") == Number(fraction) * 10
  {
    assert (fraction + "0")[..|fraction|] == fraction;
  }

  lemma {:induction false} PaddedDigits(fraction: string)
    requires |fraction| <= 9 && Digits(fraction)
    ensures Digits(Padded(fraction))
    ensures Number(Padded(fraction)) == Number(fraction) * Pow10(9 - |fraction|)
    decreases 9 - |fraction|
  {
    if |fraction| < 9 {
      var n, p := Number(fraction), Pow10(8 - |fraction|);
      OneMoreZero(fraction);
      PaddedDigits(fraction + "0");
      Associates(n, 10, p);
    }
  }

  lemma {:induction false} NumberBelow(s: string)
    requires Digits(s)
    ensures Number(s) < Pow10(|s|)
  {
    if s != [] {
      NumberBelow(s[..|s| - 1]);
    }
  }

  const NANO: int := 1_000_000_000

  function LocalSeconds(s: Stamp): int
    requires Real(s)
  {
    DayNumber(s) * 86400 + s.hour * 3600 + s.minute * 60 + s.second
  }

  function FractionNanos(s: Stamp): int
    requires Real(s)
  {
    PaddedDigits(s.fraction);
    Number(Padded(s.fraction))
  }

  /** Nanoseconds since the epoch. */
  function Nanoseconds(s: Stamp): int
    requires Real(s)
  {
    (LocalSeconds(s) - EPOCH * 86400 - OffsetMinutes(s.zone) * 60) * NANO + FractionNanos(s)
  }

  /** What a text means as an instant, if it is a timestamp of a real date and time. */
  function Observed(t: string): Option<int> {
    var s := Parse(t);
    if s.None? || !Real(s.value) then None else Some(Nanoseconds(s.value))
  }

  /** The last day of a month. */
  ghost function LastDay(year: int, month: int): int
    requires 1 <= month <= 12
  {
    if month == 2 && (year % 400 == 0 || (year % 4 == 0 && year % 100 != 0)) then 29
    else [31, 28, 31, 30, 31, 30, 31, 31, 30, 31, 30, 31][month - 1]
  }

  /** A date in the calendar, a time of day, and a zone within a day. */
  ghost predicate Dated(s: Stamp) {
    && s.year >= 1 && s.month >= 1 && s.month <= 12 && s.day >= 1 && s.day <= LastDay(s.year, s.month)
    && s.hour <= 23 && s.minute <= 59 && s.second <= 59
    && (s.zone.Some? ==> s.zone.value.hours * 60 + s.zone.value.minutes <= 1439)
  }

  lemma RealIff(s: Stamp)
    ensures Real(s) <==> Written(s) && Dated(s)
  {
    if 1 <= s.month <= 12 {
      assert DaysInMonth(s.year, s.month) == LastDay(s.year, s.month);
    }
  }

  /** The texts that name an instant are the timestamps that are properly dated. */
  lemma ObservedIff(t: string)
    ensures Observed(t).Some? <==> Parse(t).Some? && Dated(Parse(t).value)
    ensures Observed(t).Some? ==> Real(Parse(t).value) && Observed(t) == Some(Nanoseconds(Parse(t).value))
  {
    if Parse(t).Some? {
      ParsedIsRendered(t);
      RealIff(Parse(t).value);
    }
  }

  lemma {:induction false} PowersMultiply(m: nat, n: nat)
    ensures Pow10(m) * Pow10(n) == Pow10(m + n)
  {
    if m > 0 {
      PowersMultiply(m - 1, n);
      assert Pow10(m + n) == 10 * Pow10(m - 1 + n);
    }
  }

  lemma NineDigits()
    ensures Pow10(9) == NANO
  {
    assert Pow10(4) == 10_000;
    assert Pow10(8) == 100_000_000;
  }

  /** No digit of the fraction is lost: nanoseconds over a billion are digits over their power of ten. */
  lemma FractionIsExact(s: Stamp)
    requires Real(s)
    ensures FractionNanos(s) * Pow10(|s.fraction|) == Number(s.fraction) * NANO
    ensures 0 <= FractionNanos(s) < NANO
  {
    var n, k := Number(s.fraction), |s.fraction|;
    PaddedDigits(s.fraction);
    NumberBelow(Padded(s.fraction));
    PowersMultiply(9 - k, k);
    NineDigits();
    Associates(n, Pow10(9 - k), Pow10(k));
  }

  lemma {:induction false} MonthsFit(year: int, m: int, n: int)
    requires 1 <= m < n <= 12
    ensures DaysBeforeMonth(year, m) + DaysInMonth(year, m) <= DaysBeforeMonth(year, n)
    decreases n
  {
    if m < n - 1 {
      MonthsFit(year, m, n - 1);
    }
  }

  lemma MonthsFillYear(year: int)
    ensures DaysBeforeMonth(year, 12) + DaysInMonth(year, 12) == DaysInYear(year)
  {
    var february := DaysInMonth(year, 2);
    assert DaysBeforeMonth(year, 2) == 31;
    assert DaysBeforeMonth(year, 3) == 31 + february;
    assert DaysBeforeMonth(year, 5) == 92 + february;
    assert DaysBeforeMonth(year, 7) == 153 + february;
    assert DaysBeforeMonth(year, 9) == 215 + february;
    assert DaysBeforeMonth(year, 11) == 276 + february;
  }

  lemma Fourth(n: int)
    ensures n / 4 == (n - 1) / 4 + if n % 4 == 0 then 1 else 0
  {
  }

  lemma Hundredth(n: int)
    ensures n / 100 == (n - 1) / 100 + if n % 100 == 0 then 1 else 0
  {
  }

  lemma FourHundredth(n: int)
    ensures n / 400 == (n - 1) / 400 + if n % 400 == 0 then 1 else 0
  {
  }

  lemma CenturiesAreFourths(n: int)
    ensures n % 100 == 0 ==> n % 4 == 0
    ensures n % 400 == 0 ==> n % 100 == 0
  {
    assert n == 100 * (n / 100) + n % 100 == 4 * (25 * (n / 100)) + n % 100;
    assert n == 400 * (n / 400) + n % 400 == 100 * (4 * (n / 400)) + n % 400;
  }

  lemma YearStep(year: int)
    requires 1 <= year
    ensures DaysBeforeYear(year + 1) == DaysBeforeYear(year) + DaysInYear(year)
  {
    Fourth(year);
    Hundredth(year);
    FourHundredth(year);
    CenturiesAreFourths(year);
  }

  lemma {:induction false} YearsFit(y: int, z: int)
    requires 1 <= y < z
    ensures DaysBeforeYear(y) + DaysInYear(y) <= DaysBeforeYear(z)
    decreases z
  {
    YearStep(z - 1);
    if y < z - 1 {
      YearsFit(y, z - 1);
    }
  }

  predicate DateBefore(a: Stamp, b: Stamp) {
    a.year < b.year
    || (a.year == b.year && (a.month < b.month || (a.month == b.month && a.day < b.day)))
  }

  lemma DatesOrdered(a: Stamp, b: Stamp)
    requires Real(a) && Real(b) && DateBefore(a, b)
    ensures DayNumber(a) < DayNumber(b)
  {
    if a.year < b.year {
      if a.month < 12 { MonthsFit(a.year, a.month, 12); }
      MonthsFillYear(a.year);
      YearsFit(a.year, b.year);
    } else if a.month < b.month {
      MonthsFit(a.year, a.month, b.month);
    }
  }

  predicate SameDate(a: Stamp, b: Stamp) {
    a.year == b.year && a.month == b.month && a.day == b.day
  }

  function TimeOfDay(s: Stamp): int {
    s.hour * 3600 + s.minute * 60 + s.second
  }

  /** The written order of two stamps: date, time of day, fraction. */
  predicate Before(a: Stamp, b: Stamp)
    requires Real(a) && Real(b)
  {
    DateBefore(a, b)
    || (SameDate(a, b)
        && (TimeOfDay(a) < TimeOfDay(b) || (TimeOfDay(a) == TimeOfDay(b) && FractionNanos(a) < FractionNanos(b))))
  }

  lemma BeforeIsEarlier(a: Stamp, b: Stamp)
    requires Real(a) && Real(b) && a.zone == b.zone && Before(a, b)
    ensures Nanoseconds(a) < Nanoseconds(b)
  {
    FractionIsExact(a);
    FractionIsExact(b);
    if DateBefore(a, b) {
      DatesOrdered(a, b);
    }
  }

  /** Instants keep the written order of stamps in one zone, in both directions. */
  lemma OrderIsKept(a: Stamp, b: Stamp)
    requires Real(a) && Real(b) && a.zone == b.zone
    ensures Nanoseconds(a) < Nanoseconds(b) <==> Before(a, b)
  {
    if Before(a, b) {
      BeforeIsEarlier(a, b);
    } else if Before(b, a) {
      BeforeIsEarlier(b, a);
    }
  }

  /** A zone only shifts the instant, by exactly its offset. */
  lemma ZoneShifts(s: Stamp)
    requires Real(s)
    ensures Nanoseconds(s) == Nanoseconds(s.(zone := None)) - OffsetMinutes(s.zone) * 60 * NANO
  {
  }

  /** The same local time is an earlier instant the further east it is, and a later one the further west. */
  lemma EastIsEarlier(s: Stamp, hours: nat, minutes: nat)
    requires Real(s.(zone := Some(Zone(true, hours, minutes)))) && Real(s.(zone := Some(Zone(false, hours, minutes))))
    ensures var east := s.(zone := Some(Zone(true, hours, minutes)));
      var west := s.(zone := Some(Zone(false, hours, minutes)));
      var ahead := (hours * 3600 + minutes * 60) * 1_000_000_000;
      && Nanoseconds(east) == Nanoseconds(s.(zone := None)) - ahead
      && Nanoseconds(west) == Nanoseconds(s.(zone := None)) + ahead
  {
  }

  /** How many days of the year lie before a month. */
  lemma MonthTable(year: int, month: int)
    requires 1 <= month <= 12
    ensures DaysBeforeMonth(year, month) ==
      [0, 31, 59, 90, 120, 151, 181, 212, 243, 273, 304, 334][month - 1]
      + if month > 2 && (year % 400 == 0 || (year % 4 == 0 && year % 100 != 0)) then 1 else 0
  {
    var leap := if year % 400 == 0 || (year % 4 == 0 && year % 100 != 0) then 1 else 0;
    var february := DaysInMonth(year, 2);
    assert february == 28 + leap && DaysBeforeMonth(year, 2) == 31;
    assert DaysBeforeMonth(year, 3) == 31 + february && DaysBeforeMonth(year, 4) == 62 + february;
    assert DaysBeforeMonth(year, 5) == 92 + february && DaysBeforeMonth(year, 6) == 123 + february;
    assert DaysBeforeMonth(year, 7) == 153 + february && DaysBeforeMonth(year, 8) == 184 + february;
    assert DaysBeforeMonth(year, 9) == 215 + february && DaysBeforeMonth(year, 10) == 245 + february;
    assert DaysBeforeMonth(year, 11) == 276 + february && DaysBeforeMonth(year, 12) == 306 + february;
  }

  /** The epoch is the midnight that begins 1970, in UTC, and a day is 86400 seconds. */
  lemma EpochIsZero(s: Stamp)
    requires Real(s) && s.zone == None && s.fraction == [] && s.year == 1970 && s.month == 1
    ensures Nanoseconds(s) ==
      ((s.day - 1) * 86400 + s.hour * 3600 + s.minute * 60 + s.second) * 1_000_000_000
  {
    PaddedDigits([]);
    assert Number([]) == 0;
  }

  /** The seconds of a stamp on the clock of UTC: its own, less what its zone is ahead. */
  function UtcSeconds(s: Stamp): int
    requires Real(s)
  {
    LocalSeconds(s) - OffsetMinutes(s.zone) * 60
  }

  /** Across zones, instants compare as the seconds of UTC and then the fractions do. */
  lemma OrderAcrossZones(a: Stamp, b: Stamp)
    requires Real(a) && Real(b)
    ensures Nanoseconds(a) < Nanoseconds(b)
       <==> UtcSeconds(a) < UtcSeconds(b) || (UtcSeconds(a) == UtcSeconds(b) && FractionNanos(a) < FractionNanos(b))
  {
    FractionIsExact(a);
    FractionIsExact(b);
  }

  // ---------------------------------------------------------------------------
  // The shutdown in the log
  // ---------------------------------------------------------------------------

  datatype Message = CompletedShutdown | FinishedProcess(pid: int) | OtherMessage

  /** A log line: the instant its timestamp names, if it names one, and its message. */
  datatype Line = Line(observed: Option<int>, message: Message)

  function ReadLines(log: seq<(string, Message)>): (lines: seq<Line>)
    ensures |lines| == |log|
  {
    if log == [] then []
    else ReadLines(log[..|log| - 1]) + [Line(Observed(log[|log| - 1].0), log[|log| - 1].1)]
  }

  /** The line is readable and not before the start. */
  predicate Since(line: Line, start: int) {
    line.observed.Some? && line.observed.value >= start
  }

  predicate Completes(line: Line, start: int) {
    Since(line, start) && line.message.CompletedShutdown?
  }

  /** The latest shutdown-complete line, if any. */
  ghost predicate LastComplete(lines: seq<Line>, start: int, i: int) {
    && 0 <= i < |lines| && Completes(lines[i], start)
    && forall k | i < k < |lines| :: !Completes(lines[k], start)
  }

  /** Line j is the finish of the process, no earlier than the latest shutdown before it. */
  ghost predicate Finishes(lines: seq<Line>, start: int, pid: int, j: int) {
    && 0 <= j < |lines|
    && Since(lines[j], start) && lines[j].message == FinishedProcess(pid)
    && exists i :: LastComplete(lines[..j], start, i) && lines[i].observed.value <= lines[j].observed.value
  }

  /** Since the start, the process finished after a shutdown was complete. */
  ghost predicate ShowsShutdown(lines: seq<Line>, startedAt: Option<int>, pid: int) {
    startedAt.Some? && exists j :: Finishes(lines, startedAt.value, pid, j)
  }

  method ShutdownComplete(lines: seq<Line>, pid: int, startedAt: Option<int>) returns (complete: bool)
    ensures complete <==> ShowsShutdown(lines, startedAt, pid)
  {
    if startedAt.None? {
      return false;
    }
    var start := startedAt.value;
    var done: Option<int> := None;
    ghost var last := -1;
    for n := 0 to |lines|
      invariant done.None? ==> forall k | 0 <= k < n :: !Completes(lines[k], start)
      invariant done.Some? ==> LastComplete(lines[..n], start, last) && lines[last].observed == done
      invariant forall j | 0 <= j < n :: !Finishes(lines, start, pid, j)
    {
      var line := lines[n];
      if line.observed.None? || line.observed.value < start {
        continue;
      }
      if line.message.CompletedShutdown? {
        done, last := line.observed, n;
      } else if done.Some? && line.observed.value >= done.value && line.message == FinishedProcess(pid) {
        assert Finishes(lines, start, pid, n);
        return true;
      }
    }
    complete := false;
  }

  /** The scan of a log by its texts. */
  method ApiShutdownComplete(log: seq<(string, Message)>, pid: int, startedAt: string) returns (complete: bool)
    ensures complete <==> ShowsShutdown(ReadLines(log), Observed(startedAt), pid)
  {
    complete := ShutdownComplete(ReadLines(log), pid, Observed(startedAt));
  }
}
