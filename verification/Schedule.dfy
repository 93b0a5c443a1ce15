/**
 The civil calendar: days counted from 1 January of year 1, in both directions.
 */
module Calendar {

  datatype Date = Date(year: int, month: int, day: int)

  predicate Leap(y: int) {
    y % 4 == 0 && (y % 100 != 0 || y % 400 == 0)
  }

  function DaysIn(month: int, year: int): int {
    if month == 2 then (if Leap(year) then 29 else 28)
    else if month == 4 || month == 6 || month == 9 || month == 11 then 30
    else 31
  }

  predicate ValidDate(d: Date) {
    1 <= d.month <= 12 && 1 <= d.day <= DaysIn(d.month, d.year)
  }

  function YearStart(y: int): int {
    365 * (y - 1) + (y - 1) / 4 - (y - 1) / 100 + (y - 1) / 400
  }

  function YearLength(y: int): int {
    if Leap(y) then 366 else 365
  }

  /** Days of the year before the given month. */
  function MonthStart(month: int, year: int): int
    requires 1 <= month <= 13
    decreases month
  {
    if month == 1 then 0 else MonthStart(month - 1, year) + DaysIn(month - 1, year)
  }

  function DayNumber(d: Date): int
    requires ValidDate(d)
  {
    YearStart(d.year) + MonthStart(d.month, d.year) + d.day - 1
  }

  /** Cycles of 400, 100, 4 and 1 years; the last of four centuries or years may be longer. */
  function YearOf(n: int): int {
    var century := if n % 146097 / 36524 == 4 then 3 else n % 146097 / 36524;
    var inCentury := n % 146097 - 36524 * century;
    var year := if inCentury % 1461 / 365 == 4 then 3 else inCentury % 1461 / 365;
    400 * (n / 146097) + 100 * century + 4 * (inCentury / 1461) + year + 1
  }

  /** The month, from `month` on, that the given day of the year falls in. */
  function MonthOf(yday: int, month: int, year: int): (m: int)
    requires 1 <= month <= 12 && MonthStart(month, year) <= yday < YearLength(year)
    ensures month <= m <= 12 && MonthStart(m, year) <= yday < MonthStart(m + 1, year)
    decreases 12 - month
  {
    MonthsFillYear(year);
    if yday < MonthStart(month + 1, year) then month else MonthOf(yday, month + 1, year)
  }

  lemma MonthsFillYear(year: int)
    ensures MonthStart(13, year) == YearLength(year)
  {
  }

  lemma NextYear(y: int)
    ensures YearStart(y + 1) == YearStart(y) + YearLength(y)
  {
    Carry4(y - 1);
    Carry100(y - 1);
    Carry400(y - 1);
    Multiples(y);
  }

  lemma Carry4(p: int)
    ensures (p + 1) / 4 == p / 4 + if (p + 1) % 4 == 0 then 1 else 0
  {
  }

  lemma Carry100(p: int)
    ensures (p + 1) / 100 == p / 100 + if (p + 1) % 100 == 0 then 1 else 0
  {
  }

  lemma Carry400(p: int)
    ensures (p + 1) / 400 == p / 400 + if (p + 1) % 400 == 0 then 1 else 0
  {
  }

  lemma Multiples(y: int)
    ensures y % 400 == 0 ==> y % 100 == 0
    ensures y % 100 == 0 ==> y % 4 == 0
  {
  }

  /** The year that follows q full cycles, c centuries, f four-year groups and k years. */
  lemma CycleStart(q: int, c: int, f: int, k: int)
    requires 0 <= c <= 3 && 0 <= f <= 24 && 0 <= k <= 3
    ensures var y := 400 * q + 100 * c + 4 * f + k + 1;
            && YearStart(y) == 146097 * q + 36524 * c + 1461 * f + 365 * k
            && (Leap(y) <==> k == 3 && (f == 24 ==> c == 3))
  {
    var p := 400 * q + 100 * c + 4 * f + k;
    assert p / 4 == 100 * q + 25 * c + f && p % 4 == k;
    assert p / 100 == 4 * q + c && p % 100 == 4 * f + k;
    assert p / 400 == q && p % 400 == 100 * c + 4 * f + k;
    assert (p + 1) % 4 == 0 <==> k == 3;
    assert (p + 1) % 100 == 0 <==> k == 3 && f == 24;
    assert (p + 1) % 400 == 0 <==> k == 3 && f == 24 && c == 3;
  }

  /** Where the n-th day stands in its cycles. */
  lemma CycleOf(n: int)
    ensures var left := n % 146097;
            var century := if left / 36524 == 4 then 3 else left / 36524;
            var inCentury := left - 36524 * century;
            var year := if inCentury % 1461 / 365 == 4 then 3 else inCentury % 1461 / 365;
            && 0 <= century <= 3 && 0 <= inCentury / 1461 <= 24 && 0 <= year <= 3
            && 0 <= inCentury % 1461 - 365 * year <= 365
            && (inCentury % 1461 - 365 * year == 365 ==> year == 3 && (inCentury / 1461 == 24 ==> century == 3))
  {
  }

  lemma YearOfIsRight(n: int)
    ensures YearStart(YearOf(n)) <= n < YearStart(YearOf(n) + 1)
  {
    hide YearStart, Leap;
    var q, left := n / 146097, n % 146097;
    var century := if left / 36524 == 4 then 3 else left / 36524;
    var inCentury := left - 36524 * century;
    var four, inFour := inCentury / 1461, inCentury % 1461;
    var year := if inFour / 365 == 4 then 3 else inFour / 365;
    CycleOf(n);
    CycleStart(q, century, four, year);
    NextYear(YearOf(n));
  }

  lemma {:induction false} YearsAscend(a: int, b: int)
    requires a <= b
    ensures YearStart(a) <= YearStart(b)
    decreases b - a
  {
    if a < b {
      NextYear(a);
      YearsAscend(a + 1, b);
    }
  }

  lemma YearIsUnique(n: int, y: int)
    requires YearStart(y) <= n < YearStart(y + 1)
    ensures YearOf(n) == y
  {
    YearOfIsRight(n);
    if YearOf(n) < y {
      YearsAscend(YearOf(n) + 1, y);
    } else if y < YearOf(n) {
      YearsAscend(y + 1, YearOf(n));
    }
  }

  /** The date of the n-th day. */
  function DateOf(n: int): (d: Date)
    ensures ValidDate(d)
  {
    var y := YearOf(n);
    YearOfIsRight(n);
    NextYear(y);
    var yday := n - YearStart(y);
    var m := MonthOf(yday, 1, y);
    Date(y, m, yday - MonthStart(m, y) + 1)
  }

  lemma {:induction false} MonthsAscend(a: int, b: int, year: int)
    requires 1 <= a <= b <= 13
    ensures MonthStart(a, year) <= MonthStart(b, year)
    decreases b
  {
    if a < b {
      MonthsAscend(a, b - 1, year);
    }
  }

  lemma DayNumberOfDate(n: int)
    ensures DayNumber(DateOf(n)) == n
  {
  }

  lemma DateOfDayNumber(d: Date)
    requires ValidDate(d)
    ensures DateOf(DayNumber(d)) == d
  {
    hide YearOf, YearStart, DaysIn;
    var n := DayNumber(d);
    MonthsAscend(1, d.month, d.year);
    MonthsAscend(d.month + 1, 13, d.year);
    MonthsFillYear(d.year);
    NextYear(d.year);
    YearIsUnique(n, d.year);
    var m := DateOf(n).month;
    if m < d.month {
      MonthsAscend(m + 1, d.month, d.year);
    } else if d.month < m {
      MonthsAscend(d.month + 1, m, d.year);
    }
  }
}

/**
 Broadcast schedules: a send time kept as a printed date and clock, with or without a
 timezone. Instants are seconds and nanoseconds since the zero time, 1 January of year 1 in UTC.
 A timezone is a fixed offset; `zones` says which names time.LoadLocation knows.
 */
module Schedule {
  import opened Prelude
  import opened Calendar

  const MINUTE := 60
  const DAY := 86400

  /** A time.Time: an instant, and the offset it is shown at, in seconds. */
  datatype Moment = Moment(second: int, nano: nat, offset: int)

  predicate IsZero(t: Moment) {
    t.second == 0 && t.nano == 0
  }

  type Zones = string -> Option<int>

  // ---- Printing ----

  function Digit(d: nat): char
    requires d < 10
  {
    ('0' as int + d) as char
  }

  /** Decimal digits, padded with zeros to the given width. */
  function AppendInt(x: nat, width: nat): string
    decreases x + width
  {
    if x < 10 && width <= 1 then [Digit(x)]
    else AppendInt(x / 10, if width > 0 then width - 1 else 0) + [Digit(x % 10)]
  }

  function PrintYear(y: int): string {
    if y < 0 then "-" + AppendInt(-y, 4) else AppendInt(y, 4)
  }

  function PrintDay(d: Date): string
    requires ValidDate(d)
  {
    PrintYear(d.year) + "-" + AppendInt(d.month, 2) + "-" + AppendInt(d.day, 2)
  }

  function PrintMinutes(minutes: nat): string {
    AppendInt(minutes / 60, 2) + ":" + AppendInt(minutes % 60, 2)
  }

  /** A wall clock reading to the minute. */
  datatype Stamp = Stamp(date: Date, minutes: nat)

  predicate ValidStamp(stamp: Stamp) {
    ValidDate(stamp.date) && stamp.minutes < 1440
  }

  /** The date and the whole minutes since midnight that a wall clock shows. */
  function StampAt(wall: int): (stamp: Stamp)
    ensures ValidStamp(stamp)
  {
    Stamp(DateOf(wall / DAY), wall % DAY / MINUTE)
  }

  function WallOf(stamp: Stamp): int
    requires ValidStamp(stamp)
  {
    DayNumber(stamp.date) * DAY + stamp.minutes * MINUTE
  }

  // ---- Parsing ----

  datatype Scan<T> = Stuck | Read(value: T, rest: string)

  predicate IsDigit(c: char) {
    '0' <= c <= '9'
  }

  function DigitValue(c: char): nat
    requires IsDigit(c)
  {
    c as int - '0' as int
  }

  function Value(s: string): nat
    requires forall i :: 0 <= i < |s| ==> IsDigit(s[i])
  {
    if s == "" then 0 else 10 * Value(s[..|s| - 1]) + DigitValue(s[|s| - 1])
  }

  function ScanYear(s: string): Scan<nat> {
    if |s| < 4 || exists i :: 0 <= i < 4 && !IsDigit(s[i]) then Stuck else Read(Value(s[..4]), s[4..])
  }

  /** One or two digits; with `fixed`, two. */
  function ScanNumber(s: string, fixed: bool): Scan<nat> {
    if s == "" || !IsDigit(s[0]) then Stuck
    else if |s| == 1 || !IsDigit(s[1]) then (if fixed then Stuck else Read(DigitValue(s[0]), s[1..]))
    else Read(10 * DigitValue(s[0]) + DigitValue(s[1]), s[2..])
  }

  predicate StartsWith(s: string, c: char) {
    s != "" && s[0] == c
  }

  function CutSpaces(s: string): string {
    if StartsWith(s, ' ') then CutSpaces(s[1..]) else s
  }

  function ScanDate(s: string): Scan<Date> {
    match ScanYear(s)
    case Stuck => Stuck
    case Read(year, s1) =>
      if !StartsWith(s1, '-') then Stuck else
      match ScanNumber(s1[1..], true)
      case Stuck => Stuck
      case Read(month, s2) =>
        if month < 1 || month > 12 || !StartsWith(s2, '-') then Stuck else
        match ScanNumber(s2[1..], true)
        case Stuck => Stuck
        case Read(day, s3) => Read(Date(year, month, day), s3)
  }

  /** Minutes since midnight; nothing may follow. */
  function ScanClock(s: string): Option<nat> {
    match ScanNumber(s, false)
    case Stuck => None
    case Read(hour, s1) =>
      if hour >= 24 || !StartsWith(s1, ':') then None else
      match ScanNumber(s1[1..], true)
      case Stuck => None
      case Read(minute, s2) => if minute >= 60 || s2 != "" then None else Some(60 * hour + minute)
  }

  /** time.Parse("2006-01-02 15:04", s). A space in the layout matches any number of spaces. */
  function ParseStamp(s: string): (r: Option<Stamp>) {
    match ScanDate(s)
    case Stuck => None
    case Read(date, rest) =>
      if rest != "" && rest[0] != ' ' then None else
      match ScanClock(CutSpaces(rest))
      case None => None
      case Some(minutes) => if ValidDate(date) then Some(Stamp(date, minutes)) else None
  }

  lemma ParsedStampIsValid(s: string)
    ensures ParseStamp(s).Some? ==> ValidStamp(ParseStamp(s).value)
  {
  }

  // ---- The settings ----

  datatype Settings = Settings(date: string, clock: string, timezone: string)

  datatype Outcome = BadTimezone | BadFormat | Parsed(moment: Moment)

  function OffsetOf(timezone: string, zones: Zones): Option<int> {
    if timezone == "" then Some(0) else zones(timezone)
  }

  /** The moment at which a wall clock with the given offset shows the stamp. */
  function Located(stamp: Option<Stamp>, offset: int): Outcome {
    if stamp.Some? && ValidStamp(stamp.value) then Parsed(Moment(WallOf(stamp.value) - offset, 0, offset)) else BadFormat
  }

  function Parse(s: Settings, zones: Zones): Outcome {
    if s.date == "" || s.clock == "" then Parsed(Moment(0, 0, 0))
    else match OffsetOf(s.timezone, zones)
      case None => BadTimezone
      case Some(offset) => Located(ParseStamp(s.date + " " + s.clock), offset)
  }

  /** The offset SetScheduledDateTime prints at; None when the timezone does not load. */
  function ShownAt(t: Moment, timezone: string, zones: Zones): Option<int> {
    if timezone == "" then Some(t.offset) else zones(timezone)
  }

  function Printed(stamp: Stamp, timezone: string): Settings
    requires ValidDate(stamp.date)
  {
    Settings(PrintDay(stamp.date), PrintMinutes(stamp.minutes), timezone)
  }

  function PrintedAt(wall: int, timezone: string): Settings {
    Printed(StampAt(wall), timezone)
  }

  /** The settings after SetScheduledDateTime; unchanged when it fails. */
  function Scheduled(s: Settings, t: Moment, timezone: string, zones: Zones): Settings {
    if IsZero(t) then Settings("", "", "")
    else match ShownAt(t, timezone, zones)
      case None => s
      case Some(offset) => PrintedAt(t.second + offset, if timezone == "" then s.timezone else timezone)
  }

  class ScheduleSettings {
    var isScheduled: bool
    var scheduledDate: string
    var scheduledTime: string
    var timezone: string
    var useRecipientTimezone: bool

    function Contents(): Settings
      reads this
    {
      Settings(scheduledDate, scheduledTime, timezone)
    }

    method SetScheduledDateTime(t: Moment, zone: string, zones: Zones) returns (ok: bool)
      modifies this`scheduledDate, this`scheduledTime, this`timezone
      ensures ok <==> IsZero(t) || ShownAt(t, zone, zones).Some?
      ensures Contents() == Scheduled(old(Contents()), t, zone, zones)
    {
      hide DateOf, PrintDay, PrintMinutes;
      if IsZero(t) {
        scheduledDate, scheduledTime, timezone := "", "", "";
        return true;
      }
      var shown := t;
      if zone != "" {
        var location := zones(zone);
        if location == None {
          return false;
        }
        shown := Moment(t.second, t.nano, location.value);
        timezone := zone;
      }
      Print(shown.second + shown.offset);
      return true;
    }

    /** Formats a wall clock reading into the two text fields. */
    method Print(wall: int)
      modifies this`scheduledDate, this`scheduledTime
      ensures Contents() == PrintedAt(wall, old(timezone))
    {
      var stamp := StampAt(wall);
      scheduledDate := PrintDay(stamp.date);
      scheduledTime := PrintMinutes(stamp.minutes);
    }

    method ParseScheduledDateTime(zones: Zones) returns (r: Outcome)
      ensures r == Parse(Contents(), zones)
    {
      if scheduledDate == "" || scheduledTime == "" {
        return Parsed(Moment(0, 0, 0));
      }
      var datetime := scheduledDate + " " + scheduledTime;
      var offset := 0;
      if timezone != "" {
        var location := zones(timezone);
        if location == None {
          return BadTimezone;
        }
        offset := location.value;
      }
      var stamp := ParseStamp(datetime);
      if stamp == None {
        return BadFormat;
      }
      ParsedStampIsValid(datetime);
      return Parsed(Moment(WallOf(stamp.value) - offset, 0, offset));
    }
  }

  // ---- Digits ----

  function Pow10(n: nat): nat {
    if n == 0 then 1 else 10 * Pow10(n - 1)
  }

  lemma {:induction false} DigitsReadBack(x: nat, width: nat)
    requires width >= 1
    ensures var s := AppendInt(x, width);
            && (forall i :: 0 <= i < |s| ==> IsDigit(s[i])) && Value(s) == x
            && |s| >= width && (|s| == width <==> x < Pow10(width))
    decreases x + width
  {
    var s := AppendInt(x, width);
    if x < 10 && width <= 1 {
      assert s[..0] == "";
      assert Pow10(1) == 10;
    } else if width == 1 {
      DigitsReadBack(x / 10, 1);
      assert AppendInt(x / 10, 0) == AppendInt(x / 10, 1);
      assert s[..|s| - 1] == AppendInt(x / 10, 1);
      assert Pow10(1) == 10;
    } else {
      DigitsReadBack(x / 10, width - 1);
      assert s[..|s| - 1] == AppendInt(x / 10, width - 1);
    }
  }

  lemma TwoDigits(x: nat)
    requires x < 100
    ensures AppendInt(x, 2) == [Digit(x / 10), Digit(x % 10)]
  {
    assert AppendInt(x / 10, 1) == [Digit(x / 10)];
  }

  lemma NumberReadsBack(x: nat, rest: string, fixed: bool)
    requires x < 100
    ensures ScanNumber(AppendInt(x, 2) + rest, fixed) == Read(x, rest)
  {
  }

  predicate FourDigitYear(y: int) {
    0 <= y <= 9999
  }

  /** Years print in four characters exactly when they can be read back. */
  lemma YearReadsBack(y: int, rest: string)
    requires StartsWith(rest, '-')
    ensures FourDigitYear(y) ==> ScanYear(PrintYear(y) + rest) == Read(y, rest)
    ensures !FourDigitYear(y) && ScanYear(PrintYear(y) + rest).Read? ==> !StartsWith(ScanYear(PrintYear(y) + rest).rest, '-')
    ensures |PrintYear(y)| >= 4 && (|PrintYear(y)| == 4 <==> FourDigitYear(y))
  {
    var s := PrintYear(y) + rest;
    assert Pow10(4) == 10000 by { assert Pow10(2) == 100; }
    if y < 0 {
      DigitsReadBack(-y, 4);
      assert s[0] == '-';
    } else {
      DigitsReadBack(y, 4);
      if y <= 9999 {
        assert s[..4] == PrintYear(y) && s[4..] == rest;
      } else {
        assert s[4..][0] == PrintYear(y)[4];
      }
    }
  }

  lemma DateReadsBack(d: Date, rest: string)
    requires ValidDate(d)
    ensures ScanDate(PrintDay(d) + rest) == if FourDigitYear(d.year) then Read(d, rest) else Stuck
  {
    var afterMonth := "-" + (AppendInt(d.day, 2) + rest);
    var afterYear := "-" + (AppendInt(d.month, 2) + afterMonth);
    assert PrintDay(d) + rest == PrintYear(d.year) + afterYear;
    YearReadsBack(d.year, afterYear);
    if FourDigitYear(d.year) {
      assert afterYear[1..] == AppendInt(d.month, 2) + afterMonth;
      NumberReadsBack(d.month, afterMonth, true);
      assert afterMonth[1..] == AppendInt(d.day, 2) + rest;
      NumberReadsBack(d.day, rest, true);
    }
  }

  lemma ClockReadsBack(minutes: nat)
    requires minutes < 1440
    ensures var s := PrintMinutes(minutes);
            |s| == 5 && s[2] == ':' && s[0] != ' ' && ScanClock(s) == Some(minutes)
  {
    var hour, minute := minutes / 60, minutes % 60;
    TwoDigits(hour);
    TwoDigits(minute);
    var rest := ":" + AppendInt(minute, 2);
    assert PrintMinutes(minutes) == AppendInt(hour, 2) + rest;
    NumberReadsBack(hour, rest, false);
    assert rest[1..] == AppendInt(minute, 2) + "";
    NumberReadsBack(minute, "", true);
  }

  /** A printed stamp is read back in four-digit years, and in no others. */
  lemma StampReadsBack(stamp: Stamp)
    requires ValidStamp(stamp)
    ensures ParseStamp(PrintDay(stamp.date) + " " + PrintMinutes(stamp.minutes))
         == if FourDigitYear(stamp.date.year) then Some(stamp) else None
  {
    var date, clock := PrintDay(stamp.date), PrintMinutes(stamp.minutes);
    var rest := " " + clock;
    assert date + " " + clock == date + rest;
    DateReadsBack(stamp.date, rest);
    ClockReadsBack(stamp.minutes);
    assert rest[1..] == clock;
    assert CutSpaces(rest) == clock;
  }

  /** A stamp determines the wall clock up to the minute, and the other way round. */
  lemma WallOfStampAt(wall: int)
    ensures WallOf(StampAt(wall)) == wall - wall % MINUTE
  {
    DayNumberOfDate(wall / DAY);
    WholeMinutes(wall);
  }

  lemma WholeMinutes(wall: int)
    ensures wall / DAY * DAY + wall % DAY / MINUTE * MINUTE == wall - wall % MINUTE
  {
  }

  lemma StampAtWallOf(stamp: Stamp)
    requires ValidStamp(stamp)
    ensures StampAt(WallOf(stamp)) == stamp
  {
    hide DayNumber, DateOf;
    DateOfDayNumber(stamp.date);
    WallSplits(DayNumber(stamp.date), stamp.minutes);
  }

  lemma WallSplits(day: int, minutes: nat)
    requires minutes < 1440
    ensures (day * DAY + minutes * MINUTE) / DAY == day
    ensures (day * DAY + minutes * MINUTE) % DAY / MINUTE == minutes
  {
  }

  // ---- Printing, then parsing ----

  /** The wall clock reading that SetScheduledDateTime prints. */
  function Wall(t: Moment, timezone: string, zones: Zones): int
    requires ShownAt(t, timezone, zones).Some?
  {
    t.second + ShownAt(t, timezone, zones).value
  }

  lemma PrintedParses(stamp: Stamp, timezone: string, zones: Zones)
    requires ValidStamp(stamp)
    ensures var read := OffsetOf(timezone, zones);
            (Parse(Printed(stamp, timezone), zones)
             == if read == None then BadTimezone
                else Located(if FourDigitYear(stamp.date.year) then Some(stamp) else None, read.value))
  {
    StampReadsBack(stamp);
    ClockReadsBack(stamp.minutes);
    YearReadsBack(stamp.date.year, "-");
  }

  /** What parsing makes of settings that SetScheduledDateTime has just written. */
  lemma SetThenParse(s: Settings, t: Moment, timezone: string, zones: Zones)
    requires !IsZero(t) && ShownAt(t, timezone, zones).Some?
    ensures var wall := Wall(t, timezone, zones);
            var written := Scheduled(s, t, timezone, zones);
            var read := OffsetOf(written.timezone, zones);
            (Parse(written, zones)
             == if read == None then BadTimezone
                else if !FourDigitYear(StampAt(wall).date.year) then BadFormat
                else Parsed(Moment(wall - wall % MINUTE - read.value, 0, read.value)))
  {
    hide DateOf, PrintDay, PrintMinutes, ParseStamp, WallOf;
    PrintedAtParses(Wall(t, timezone, zones), Scheduled(s, t, timezone, zones).timezone, zones);
  }

  lemma PrintedAtParses(wall: int, timezone: string, zones: Zones)
    ensures var read := OffsetOf(timezone, zones);
            (Parse(PrintedAt(wall, timezone), zones)
             == if read == None then BadTimezone
                else if !FourDigitYear(StampAt(wall).date.year) then BadFormat
                else Parsed(Moment(wall - wall % MINUTE - read.value, 0, read.value)))
  {
    PrintedParses(StampAt(wall), timezone, zones);
    WallOfStampAt(wall);
  }

  /**
   The round trip: the instant comes back, cut to the minute shown, exactly when the year
   shown has four digits and the settings end up with a timezone at the offset shown. A
   timezone passed in always does; with none passed in, the one left from before decides.
   */
  lemma RoundTrip(s: Settings, t: Moment, timezone: string, zones: Zones)
    requires !IsZero(t) && ShownAt(t, timezone, zones).Some?
    ensures var wall := Wall(t, timezone, zones);
            var back := Parse(Scheduled(s, t, timezone, zones), zones);
            ((back.Parsed? && back.moment.second == t.second - wall % MINUTE && back.moment.nano == 0)
             <==> (FourDigitYear(StampAt(wall).date.year)
                   && (timezone != "" || OffsetOf(s.timezone, zones) == Some(t.offset))))
  {
    hide DateOf, PrintDay, PrintMinutes, ParseStamp, WallOf;
    SetThenParse(s, t, timezone, zones);
  }

  /** The promise for UTC times and no timezone. */
  lemma UtcRoundTrip(s: Settings, t: Moment, zones: Zones)
    requires s.timezone == "" && t.offset == 0 && FourDigitYear(StampAt(t.second).date.year)
    ensures Parse(Scheduled(s, t, "", zones), zones) == Parsed(Moment(t.second - t.second % MINUTE, 0, 0))
  {
    hide DateOf, PrintDay, PrintMinutes, ParseStamp, WallOf;
    if IsZero(t) {
      ZeroRoundTrip(s, t, "", zones);
    } else {
      SetThenParse(s, t, "", zones);
      assert Wall(t, "", zones) == t.second;
    }
  }

  /** The zero time is written as blanks, forgetting any timezone, and comes back as itself. */
  lemma ZeroRoundTrip(s: Settings, t: Moment, timezone: string, zones: Zones)
    requires IsZero(t)
    ensures Scheduled(s, t, timezone, zones) == Settings("", "", "")
    ensures Parse(Scheduled(s, t, timezone, zones), zones) == Parsed(Moment(0, 0, 0))
  {
  }

  // ---- Broadcast.Validate's look at the schedule ----

  datatype Fault = Missing | DateShape | ClockShape | UnknownTimezone

  function ScheduleFault(isScheduled: bool, s: Settings, zones: Zones): Option<Fault> {
    if !isScheduled then None
    else if s.date == "" || s.clock == "" then Some(Missing)
    else if |s.date| != 10 || s.date[4] != '-' || s.date[7] != '-' then Some(DateShape)
    else if |s.clock| != 5 || s.clock[2] != ':' then Some(ClockShape)
    else if s.timezone != "" && zones(s.timezone) == None then Some(UnknownTimezone)
    else None
  }

  /** What was written passes validation exactly when it can be parsed again; the clock never fails. */
  lemma WrittenPassesIffParsed(s: Settings, t: Moment, timezone: string, zones: Zones)
    requires !IsZero(t) && ShownAt(t, timezone, zones).Some?
    ensures var written := Scheduled(s, t, timezone, zones);
            var fault := ScheduleFault(true, written, zones);
            && (fault == None <==> Parse(written, zones).Parsed?)
            && fault != Some(Missing) && fault != Some(ClockShape)
            && (fault == Some(DateShape) <==> !FourDigitYear(StampAt(Wall(t, timezone, zones)).date.year))
  {
    hide DateOf, PrintDay, PrintMinutes, ParseStamp, WallOf;
    PrintedPassesIffParsed(StampAt(Wall(t, timezone, zones)), Scheduled(s, t, timezone, zones).timezone, zones);
  }

  lemma PrintedPassesIffParsed(stamp: Stamp, timezone: string, zones: Zones)
    requires ValidStamp(stamp)
    ensures var fault := ScheduleFault(true, Printed(stamp, timezone), zones);
            && (fault == None <==> Parse(Printed(stamp, timezone), zones).Parsed?)
            && fault != Some(Missing) && fault != Some(ClockShape)
            && (fault == Some(DateShape) <==> !FourDigitYear(stamp.date.year))
  {
    PrintedParses(stamp, timezone, zones);
    ClockReadsBack(stamp.minutes);
    DateShapeIsFourDigitYear(stamp.date);
  }

  lemma DateShapeIsFourDigitYear(d: Date)
    requires ValidDate(d)
    ensures var s := PrintDay(d);
            s != "" && (FourDigitYear(d.year) <==> |s| == 10 && s[4] == '-' && s[7] == '-')
  {
    YearReadsBack(d.year, "-");
    TwoDigits(d.month);
    TwoDigits(d.day);
  }

  // ---- Parsing, then printing ----

  lemma PairReprints(a: char, b: char)
    requires IsDigit(a) && IsDigit(b)
    ensures AppendInt(10 * DigitValue(a) + DigitValue(b), 2) == [a, b]
  {
    TwoDigits(10 * DigitValue(a) + DigitValue(b));
  }

  lemma {:induction false} ValueReprints(s: string)
    requires s != "" && forall i :: 0 <= i < |s| ==> IsDigit(s[i])
    ensures AppendInt(Value(s), |s|) == s
  {
    var front := s[..|s| - 1];
    assert s == front + [s[|s| - 1]];
    if |s| > 1 {
      ValueReprints(front);
    } else {
      assert Value("") == 0;
    }
  }

  lemma {:induction false} ValueFits(s: string)
    requires forall i :: 0 <= i < |s| ==> IsDigit(s[i])
    ensures Value(s) < Pow10(|s|)
  {
    if s != "" {
      ValueFits(s[..|s| - 1]);
    }
  }

  lemma DateReprints(date: string, rest: string)
    requires |date| == 10 && ScanDate(date + rest).Read? && ValidDate(ScanDate(date + rest).value)
    ensures var d := ScanDate(date + rest).value;
            PrintYear(d.year) + "-" + AppendInt(d.month, 2) + "-" + AppendInt(d.day, 2) == date
    ensures ScanDate(date + rest).rest == rest && FourDigitYear(ScanDate(date + rest).value.year)
  {
    var s := date + rest;
    assert s[..4] == date[..4];
    ValueReprints(date[..4]);
    ValueFits(date[..4]);
    assert Pow10(4) == 10000 by { assert Pow10(2) == 100; }
    assert s[4..][0] == date[4];
    assert s[4..][1..] == s[5..] && s[5..][0] == date[5] && s[5..][1] == date[6];
    PairReprints(date[5], date[6]);
    assert s[5..][2..] == s[7..] && s[7..][0] == date[7] && s[7..][1..] == s[8..];
    assert s[8..][0] == date[8] && s[8..][1] == date[9];
    PairReprints(date[8], date[9]);
    assert s[8..][2..] == rest;
    assert date == date[..4] + "-" + [date[5], date[6]] + "-" + [date[8], date[9]];
  }

  /** A clock of the accepted shape that parses is two digits, colon, two digits, or pads a lone hour with a space. */
  lemma ClockReprints(clock: string)
    requires |clock| == 5 && clock[2] == ':' && ScanClock(CutSpaces(clock)).Some?
    ensures var minutes := ScanClock(CutSpaces(clock)).value;
            minutes < 1440 && (PrintMinutes(minutes) == clock <==> clock[0] != ' ')
  {
    var minutes := ScanClock(CutSpaces(clock)).value;
    if clock[0] == ' ' {
      ClockReadsBack(minutes);
    } else {
      assert CutSpaces(clock) == clock && IsDigit(clock[0]) && IsDigit(clock[1]);
      PlainClockReprints(clock);
    }
  }

  lemma PlainClockReprints(clock: string)
    requires |clock| == 5 && clock[2] == ':' && ScanClock(clock).Some? && IsDigit(clock[0]) && IsDigit(clock[1])
    ensures ScanClock(clock).value < 1440 && PrintMinutes(ScanClock(clock).value) == clock
  {
    var rest := clock[2..];
    assert ScanNumber(clock, false).rest == rest;
    assert rest[1..] == clock[3..] && clock[3..][0] == clock[3] && clock[3..][1] == clock[4];
    PairReprints(clock[0], clock[1]);
    PairReprints(clock[3], clock[4]);
    var minutes := ScanClock(clock).value;
    assert minutes / 60 == ScanNumber(clock, false).value;
    assert clock == [clock[0], clock[1]] + ":" + [clock[3], clock[4]];
  }

  lemma StampReprints(date: string, clock: string)
    requires |date| == 10 && |clock| == 5 && clock[2] == ':' && ParseStamp(date + " " + clock).Some?
    ensures var stamp := ParseStamp(date + " " + clock).value;
            && ValidStamp(stamp)
            && PrintDay(stamp.date) == date && (PrintMinutes(stamp.minutes) == clock <==> clock[0] != ' ')
  {
    var rest := " " + clock;
    var whole := date + " " + clock;
    assert whole == date + rest;
    assert ScanDate(whole).Read? && ValidDate(ScanDate(whole).value);
    assert rest[1..] == clock && CutSpaces(rest) == CutSpaces(clock);
    DateReprints(date, rest);
    ClockReprints(clock);
  }

  /**
   The other way round: a schedule that validates and parses is written back as it was
   exactly when its clock does not start with a space and it is not the zero time.
   */
  lemma ParseThenSet(s: Settings, zones: Zones)
    requires ScheduleFault(true, s, zones) == None && Parse(s, zones).Parsed?
    ensures Scheduled(s, Parse(s, zones).moment, s.timezone, zones) == s
       <==> s.clock[0] != ' ' && !IsZero(Parse(s, zones).moment)
  {
    StampReprints(s.date, s.clock);
    ParsedThenSet(s, ParseStamp(s.date + " " + s.clock).value, zones);
  }

  lemma ParsedThenSet(s: Settings, stamp: Stamp, zones: Zones)
    requires ValidStamp(stamp) && OffsetOf(s.timezone, zones).Some?
    ensures var t := Located(Some(stamp), OffsetOf(s.timezone, zones).value).moment;
            Scheduled(s, t, s.timezone, zones) == if IsZero(t) then Settings("", "", "") else Printed(stamp, s.timezone)
  {
    hide DateOf, PrintDay, PrintMinutes, ParseStamp, WallOf;
    StampAtWallOf(stamp);
  }

  /** A lone hour padded with a space validates and parses, whatever the date. */
  lemma PaddedHourParses(stamp: Stamp, zones: Zones)
    requires ValidStamp(stamp) && FourDigitYear(stamp.date.year)
    ensures var s := Settings(PrintDay(stamp.date), " 9:30", "");
            ScheduleFault(true, s, zones) == None && Parse(s, zones).Parsed?
  {
    hide PrintDay, ScanDate, DayNumber, ScanClock;
    DateShapeIsFourDigitYear(stamp.date);
    DateReadsBack(stamp.date, "  9:30");
    assert PrintDay(stamp.date) + " " + " 9:30" == PrintDay(stamp.date) + "  9:30";
    HalfPastNine();
  }

  lemma HalfPastNine()
    ensures ScanClock(CutSpaces("  9:30")) == Some(570)
  {
  }

  /** Midnight of the first day validates and parses, to the zero time. */
  lemma FirstMidnightIsZero(zones: Zones)
    ensures var s := Printed(Stamp(Date(1, 1, 1), 0), "");
            ScheduleFault(true, s, zones) == None && Parse(s, zones) == Parsed(Moment(0, 0, 0))
  {
    var stamp := Stamp(Date(1, 1, 1), 0);
    PrintedPassesIffParsed(stamp, "", zones);
    PrintedParses(stamp, "", zones);
    FirstMidnight();
  }

  lemma FirstMidnight()
    ensures WallOf(Stamp(Date(1, 1, 1), 0)) == 0
  {
  }
}
