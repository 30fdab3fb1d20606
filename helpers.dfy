/**
 * The shared utility class `Helpers` (utils/helpers.js). utils.js carries a
 * second copy of the same class; its parseTime, formatTime, cleanHostname,
 * isValidPIN and calculateAge have the same text and are modelled here once.
 */
module Helpers {
  import opened Wrappers
  import opened Strings

  // ------------------------------------------------------------ calculateAge

  /** A calendar date as `Date` reports it: full year, month 0..11, day of month. */
  datatype CalendarDate = CalendarDate(year: int, month: int, day: int)

  /** The `k`-th birthday after `birth` falls on or before `today`. */
  predicate BirthdayReached(today: CalendarDate, birth: CalendarDate, k: int)
  {
    var y := birth.year + k;
    y < today.year
    || (y == today.year && (birth.month < today.month
                            || (birth.month == today.month && birth.day <= today.day)))
  }

  /** Whole years from `birth` to `today`: the year difference, less one before the birthday. */
  function YearsBetween(today: CalendarDate, birth: CalendarDate): (age: int)
    ensures BirthdayReached(today, birth, age)
    ensures !BirthdayReached(today, birth, age + 1)
  {
    var age := today.year - birth.year;
    var monthDiff := today.month - birth.month;
    if monthDiff < 0 || (monthDiff == 0 && today.day < birth.day) then age - 1 else age
  }

  /** `calculateAge(birthdate)`: 0 without a birth date, otherwise the completed years. */
  function CalculateAge(today: CalendarDate, birthdate: Option<CalendarDate>): (age: int)
    ensures birthdate.None? ==> age == 0
    ensures birthdate.Some? ==>
      BirthdayReached(today, birthdate.value, age) && !BirthdayReached(today, birthdate.value, age + 1)
  {
    match birthdate
    case None => 0
    case Some(b) => YearsBetween(today, b)
  }

  /** The number of completed years is the only count with that property. */
  lemma AgeIsUnique(today: CalendarDate, birth: CalendarDate, k: int)
    requires BirthdayReached(today, birth, k) && !BirthdayReached(today, birth, k + 1)
    ensures k == YearsBetween(today, birth)
  {
    var a := YearsBetween(today, birth);
    if k < a {
      MonotoneBirthday(today, birth, k + 1, a);
    } else if k > a {
      MonotoneBirthday(today, birth, a + 1, k);
    }
  }

  lemma MonotoneBirthday(today: CalendarDate, birth: CalendarDate, j: int, k: int)
    requires j <= k && BirthdayReached(today, birth, k)
    ensures BirthdayReached(today, birth, j)
  {}

  // ------------------------------------------------------- calculateDaysLeft

  /** The life-expectancy table keyed by continent, 79 for any other value. */
  function ExpectedLifespan(continent: string): (years: nat)
    ensures 64 <= years <= 81
  {
    if continent == "North America" then 79
    else if continent == "Europe" then 78
    else if continent == "Asia" then 73
    else if continent == "South America" then 76
    else if continent == "Africa" then 64
    else if continent == "Oceania" then 81
    else if continent == "Antarctica" then 79
    else 79
  }

  /** `Math.max(a, b)`. */
  function Max(a: int, b: int): (r: int)
    ensures r >= a && r >= b && (r == a || r == b)
  {
    if a >= b then a else b
  }

  /** `Math.floor(years * 365.25)` for a whole number of years. */
  function YearsToDays(years: nat): (days: nat)
    ensures 4 * days <= 1461 * years < 4 * days + 4
  {
    years * 1461 / 4
  }

  /**
   * `calculateDaysLeft(age, continent)`: 0 for age 0, -1 ("borrowed time")
   * once the expected lifespan is reached, otherwise the remaining years in days.
   */
  function CalculateDaysLeft(age: int, continent: string): (days: int)
    ensures age == 0 ==> days == 0
    ensures age != 0 && age >= ExpectedLifespan(continent) ==> days == -1
    ensures age != 0 && age < ExpectedLifespan(continent) ==>
      days > 0 && 4 * days <= 1461 * (ExpectedLifespan(continent) - age) < 4 * days + 4
  {
    if age == 0 then 0
    else
      var expected := ExpectedLifespan(continent);
      if age >= expected then -1
      else YearsToDays(Max(0, expected - age))
  }

  /** An older user never has more days left than a younger one on the same continent. */
  lemma DaysLeftDecreasesWithAge(a: int, b: int, continent: string)
    requires 0 < a <= b
    ensures CalculateDaysLeft(b, continent) <= CalculateDaysLeft(a, continent)
  {}

  lemma DaysLeftExamples()
    ensures 0 < CalculateDaysLeft(25, "North America") < 20000
    ensures CalculateDaysLeft(85, "North America") == -1
    ensures CalculateDaysLeft(30, "Atlantis") == CalculateDaysLeft(30, "North America") == 17897
  {}

  // --------------------------------------------------------------- parseTime

  /** `Number(part)` for the parts a time string holds: none for a non-numeric part. */
  function NumberOfPart(part: string): (r: Option<nat>)
    ensures part == "" ==> r == Some(0)
    ensures AllDigits(part) ==> r == Some(DigitsValue(part))
    ensures !AllDigits(part) ==> r.None?
  {
    if AllDigits(part) then Some(DigitsValue(part)) else None
  }

  /** `parts[i]`, absent past the end. */
  function Part(parts: seq<string>, i: nat): Option<string>
  {
    if i < |parts| then Some(parts[i]) else None
  }

  /** `(x || 0)` applied to `Number(parts[i])`: a missing or non-numeric part counts 0. */
  function PartOrZero(parts: seq<string>, i: nat): nat
  {
    match Part(parts, i)
    case None => 0
    case Some(p) => NumberOfPart(p).GetOr(0)
  }

  /** `parseTime("HH:MM")`: minutes since midnight; the empty string gives 0. */
  function ParseTime(timeString: string): nat
  {
    if timeString == "" then 0
    else
      var parts := Split(timeString, ':');
      PartOrZero(parts, 0) * 60 + PartOrZero(parts, 1)
  }

  /** A zero-padded clock reading "HH:MM" decodes to its hours and minutes. */
  lemma {:induction false} ParseTimeOfClock(h: nat, m: nat)
    ensures ParseTime(Pad2(h) + ":" + Pad2(m)) == h * 60 + m
  {
    var pieces := [Pad2(h), Pad2(m)];
    assert Join(pieces, ':') == Pad2(h) + ":" + Pad2(m) by {
      assert Join(pieces[1..], ':') == Pad2(m);
    }
    forall k, i | 0 <= k < |pieces| && 0 <= i < |pieces[k]| ensures pieces[k][i] != ':' {
      assert IsDigit(pieces[k][i]);
    }
    SplitJoin(pieces, ':');
    Pad2Value(h);
    Pad2Value(m);
  }

  lemma ParseTimeExamples()
    ensures ParseTime("09:00") == 540
    ensures ParseTime("23:59") == 1439
  {
    ParseTimeOfClock(9, 0);
    ParseTimeOfClock(23, 59);
    assert Pad2(9) + ":" + Pad2(0) == "09:00";
    assert Pad2(23) + ":" + Pad2(59) == "23:59";
  }

  lemma ParseTimeEdgeExamples()
    ensures ParseTime("00:00") == 0
    ensures ParseTime("") == 0
  {
    ParseTimeOfClock(0, 0);
    assert Pad2(0) + ":" + Pad2(0) == "00:00";
  }

  /** A time string without a colon is read as whole hours. */
  lemma ParseTimeHoursOnly(h: string)
    requires h != "" && AllDigits(h)
    ensures ParseTime(h) == 60 * DigitsValue(h)
  {
    IndexOfAbsent(h, ':');
    assert Split(h, ':') == [h];
  }

  /** A non-numeric hour field counts as 0 hours; the minutes still count. */
  lemma ParseTimeBadHours(h: string, m: nat)
    requires forall i :: 0 <= i < |h| ==> h[i] != ':'
    requires !AllDigits(h)
    ensures ParseTime(h + ":" + Pad2(m)) == m
  {
    var pieces := [h, Pad2(m)];
    assert Join(pieces, ':') == h + ":" + Pad2(m) by {
      assert Join(pieces[1..], ':') == Pad2(m);
    }
    forall k, i | 0 <= k < |pieces| && 0 <= i < |pieces[k]| ensures pieces[k][i] != ':' {
      if k == 1 { assert IsDigit(pieces[k][i]); }
    }
    SplitJoin(pieces, ':');
    Pad2Value(m);
  }

  // -------------------------------------------------------------- formatTime

  /** `formatTime(minutes)`: "Nm", "Hh Mm" / "Hh" under a day, "Dd Hh" / "Dd" from a day on. */
  function FormatTime(minutes: nat): string
  {
    if minutes < 60 then NatToString(minutes) + "m"
    else if minutes < 1440 then
      var hours := minutes / 60;
      var mins := minutes % 60;
      if mins > 0 then NatToString(hours) + "h " + NatToString(mins) + "m"
      else NatToString(hours) + "h"
    else
      var days := minutes / 1440;
      var hours := minutes % 1440 / 60;
      if hours > 0 then NatToString(days) + "d " + NatToString(hours) + "h"
      else NatToString(days) + "d"
  }

  /** Minutes per unit letter of a duration token. */
  function UnitMinutes(u: char): Option<nat>
  {
    if u == 'd' then Some(1440) else if u == 'h' then Some(60) else if u == 'm' then Some(1) else None
  }

  /** The minutes one token "<digits><unit>" stands for. */
  function TokenValue(t: string): Option<nat>
  {
    if |t| < 2 || !AllDigits(t[..|t| - 1]) then None
    else match UnitMinutes(t[|t| - 1])
      case None => None
      case Some(u) => Some(DigitsValue(t[..|t| - 1]) * u)
  }

  function TokensValue(ts: seq<string>): Option<nat>
  {
    if ts == [] then Some(0)
    else match (TokenValue(ts[0]), TokensValue(ts[1..]))
      case (Some(a), Some(b)) => Some(a + b)
      case _ => None
  }

  /** How many minutes a rendering such as "1d 1h" stands for when read back. */
  function DurationValue(s: string): Option<nat>
  {
    TokensValue(Split(s, ' '))
  }

  predicate NoSpace(t: string) { forall i :: 0 <= i < |t| ==> t[i] != ' ' }

  lemma TokenOf(n: nat, u: char)
    requires UnitMinutes(u).Some?
    ensures TokenValue(NatToString(n) + [u]) == Some(n * UnitMinutes(u).value)
    ensures NoSpace(NatToString(n) + [u])
  {
    var t := NatToString(n) + [u];
    assert t[..|t| - 1] == NatToString(n);
    NatToStringValue(n);
    forall i | 0 <= i < |t| ensures t[i] != ' ' {
      if i < |t| - 1 { assert IsDigit(t[i]); }
    }
  }

  lemma OneToken(n: nat, u: char)
    requires UnitMinutes(u).Some?
    ensures DurationValue(NatToString(n) + [u]) == Some(n * UnitMinutes(u).value)
  {
    var t := NatToString(n) + [u];
    TokenOf(n, u);
    assert Join([t], ' ') == t;
    SplitJoin([t], ' ');
    assert TokensValue([t][1..]) == Some(0);
  }

  lemma TwoTokens(t1: string, t2: string)
    requires TokenValue(t1).Some? && TokenValue(t2).Some?
    requires NoSpace(t1) && NoSpace(t2)
    ensures DurationValue(t1 + " " + t2) == Some(TokenValue(t1).value + TokenValue(t2).value)
  {
    var ts := [t1, t2];
    assert Join(ts, ' ') == t1 + " " + t2 by {
      assert Join(ts[1..], ' ') == t2;
    }
    SplitJoin(ts, ' ');
    assert ts[1..] == [t2];
    assert TokensValue([t2]) == TokenValue(t2) by {
      assert TokensValue([t2][1..]) == Some(0);
    }
  }

  lemma HoursMinutesShape(x: string, y: string)
    ensures x + "h " + y + "m" == (x + ['h']) + " " + (y + ['m'])
  {}

  lemma DaysHoursShape(x: string, y: string)
    ensures x + "d " + y + "h" == (x + ['d']) + " " + (y + ['h'])
  {}

  lemma ReadsBackBelowDay(m: nat)
    requires 60 <= m < 1440
    ensures DurationValue(FormatTime(m)) == Some(m)
  {
    var h, r := m / 60, m % 60;
    if r > 0 {
      assert FormatTime(m) == NatToString(h) + "h " + NatToString(r) + "m";
      HoursMinutesShape(NatToString(h), NatToString(r));
      TokenOf(h, 'h');
      TokenOf(r, 'm');
      TwoTokens(NatToString(h) + ['h'], NatToString(r) + ['m']);
    } else {
      assert FormatTime(m) == NatToString(h) + ['h'];
      OneToken(h, 'h');
    }
  }

  lemma DaysHoursSplit(m: nat)
    ensures m - m % 60 == m / 1440 * 1440 + m % 1440 / 60 * 60
  {
    var d, r := m / 1440, m % 1440;
    var h := r / 60;
    assert m == d * 1440 + r;
    assert r == h * 60 + r % 60;
    assert m == (d * 24 + h) * 60 + r % 60;
    assert m % 60 == r % 60;
  }

  lemma ReadsBackFromDay(m: nat)
    requires 1440 <= m
    ensures DurationValue(FormatTime(m)) == Some(m - m % 60)
  {
    var d, h := m / 1440, m % 1440 / 60;
    DaysHoursSplit(m);
    if h > 0 {
      assert FormatTime(m) == NatToString(d) + "d " + NatToString(h) + "h";
      DaysHoursShape(NatToString(d), NatToString(h));
      TokenOf(d, 'd');
      TokenOf(h, 'h');
      TwoTokens(NatToString(d) + ['d'], NatToString(h) + ['h']);
    } else {
      assert FormatTime(m) == NatToString(d) + ['d'];
      OneToken(d, 'd');
    }
  }

  /**
   * What the rendering keeps: reading `formatTime(m)` back gives `m` exactly
   * below a day; from a day on the leftover minutes are dropped.
   */
  lemma FormatTimeReadsBack(m: nat)
    ensures DurationValue(FormatTime(m)) == Some(if m < 1440 then m else m - m % 60)
  {
    if m < 60 {
      assert FormatTime(m) == NatToString(m) + ['m'];
      OneToken(m, 'm');
    } else if m < 1440 {
      ReadsBackBelowDay(m);
    } else {
      ReadsBackFromDay(m);
    }
  }

  lemma FormatTimeExamples()
    ensures FormatTime(30) == "30m"
    ensures FormatTime(90) == "1h 30m"
    ensures FormatTime(120) == "2h"
  {
    assert NatToString(30) == "30";
    assert NatToString(1) == "1" && NatToString(2) == "2";
  }

  lemma FormatTimeDayExamples()
    ensures FormatTime(1440) == "1d"
    ensures FormatTime(1500) == "1d 1h"
  {
    assert NatToString(1) == "1";
  }

  // ----------------------------------------------------------- cleanHostname

  /** `cleanHostname(h)`: lower-cased, one leading "www." removed. */
  function CleanHostname(hostname: string): string
  {
    StripPrefix(Lower(hostname), "www.")
  }

  lemma CleanHostnameShape(h: string)
    ensures IsLower(CleanHostname(h))
    ensures Lower(h) == CleanHostname(h) || Lower(h) == "www." + CleanHostname(h)
    ensures !StartsWith(Lower(h), "www.") ==> CleanHostname(h) == Lower(h)
  {
    LowerIsLower(h);
  }

  /** Cleaning again changes nothing exactly when no second "www." is exposed. */
  lemma CleanHostnameIdempotentIff(h: string)
    ensures CleanHostname(CleanHostname(h)) == CleanHostname(h)
        <==> !StartsWith(CleanHostname(h), "www.")
  {
    var c := CleanHostname(h);
    CleanHostnameShape(h);
    LowerOfLower(c);
    if StartsWith(c, "www.") {
      assert |CleanHostname(c)| == |c| - 4;
    }
  }

  /** A lower-case host behind "www." cleans to the host itself. */
  lemma CleanHostnameStripsWww(rest: string)
    requires IsLower(rest)
    ensures CleanHostname("www." + rest) == rest
  {
    var h := "www." + rest;
    assert IsLower(h);
    LowerOfLower(h);
    assert h[..4] == "www.";
  }

  // -------------------------------------------------------------- isValidPIN

  /** `/^\d{4}$/.test(pin)`: exactly four ASCII digits. */
  predicate IsValidPIN(pin: string)
  {
    |pin| == 4 && AllDigits(pin)
  }

  /** Every code 0000..9999, written with its leading zeros, is a valid PIN. */
  lemma PaddedCodeIsValidPIN(n: nat)
    requires n < 10000
    ensures IsValidPIN(Pad2(n / 100) + Pad2(n % 100))
  {}

  lemma IsValidPINExamples()
    ensures IsValidPIN("1234") && IsValidPIN("0000") && IsValidPIN("9999")
    ensures !IsValidPIN("123") && !IsValidPIN("12345") && !IsValidPIN("abcd") && !IsValidPIN("")
  {
    assert !IsDigit("abcd"[0]);
  }

  // ------------------------------------------------------- daysUntilDeadline

  const DayMs: nat := 86400000

  /** `Math.ceil((deadline - now) / 86400000)`, on millisecond instants. */
  function DaysUntil(deadline: int, now: int): (days: int)
    ensures (days - 1) * DayMs < deadline - now <= days * DayMs
  {
    -((now - deadline) / DayMs)
  }

  /** `daysUntilDeadline(deadline)`: none without a deadline. */
  function DaysUntilDeadline(deadline: Option<int>, now: int): (r: Option<int>)
    ensures r.Some? <==> deadline.Some?
    ensures deadline.Some? ==> (r.value - 1) * DayMs < deadline.value - now <= r.value * DayMs
  {
    match deadline
    case None => None
    case Some(d) => Some(DaysUntil(d, now))
  }

  /** A deadline exactly on "now" is due in 0 days; one ms later counts as a whole day. */
  lemma DaysUntilRoundsUp(now: int)
    ensures DaysUntil(now, now) == 0
    ensures DaysUntil(now + 1, now) == 1
    ensures DaysUntil(now + DayMs, now) == 1
    ensures DaysUntil(now - 1, now) == 0
  {}
}
