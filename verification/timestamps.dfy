/** Compact datetimes (`YYYYMMDDTHHMMSS`) read as UTC and turned into POSIX
    timestamps: seconds since 1970-01-01T00:00:00, leap seconds ignored, on
    the proleptic Gregorian calendar. */
module Timestamps {
  import opened Wrappers
  import opened Text

  datatype DateTime = DateTime(year: int, month: int, day: int, hour: int, minute: int, second: int)

  predicate IsLeap(y: int) {
    y % 4 == 0 && (y % 100 != 0 || y % 400 == 0)
  }

  function DaysInMonth(y: int, m: int): (n: int)
    requires 1 <= m <= 12
    ensures 28 <= n <= 31
    ensures n == 29 <==> m == 2 && IsLeap(y)
  {
    if m == 2 then (if IsLeap(y) then 29 else 28)
    else if m == 4 || m == 6 || m == 9 || m == 11 then 30
    else 31
  }

  /** A calendar date and time of day that `datetime` accepts. */
  predicate Valid(t: DateTime) {
    1 <= t.year <= 9999 && 1 <= t.month <= 12 && 1 <= t.day <= DaysInMonth(t.year, t.month)
    && 0 <= t.hour < 24 && 0 <= t.minute < 60 && 0 <= t.second < 60
  }

  /** Days in the months of year `y` before month `m`, from the usual
      table of cumulative month lengths. */
  function DaysBeforeMonth(y: int, m: int): (n: int)
    requires 1 <= m <= 12
    ensures 0 <= n <= 335
  {
    [0, 31, 59, 90, 120, 151, 181, 212, 243, 273, 304, 334][m - 1]
      + (if m > 2 && IsLeap(y) then 1 else 0)
  }

  /** The table agrees with the month lengths: each month starts where the
      previous one ends, and December ends the year. */
  lemma MonthLengths(y: int, m: int)
    requires 1 <= m <= 12
    ensures m < 12 ==> DaysBeforeMonth(y, m + 1) == DaysBeforeMonth(y, m) + DaysInMonth(y, m)
    ensures m == 12 ==> DaysBeforeMonth(y, m) + DaysInMonth(y, m) == if IsLeap(y) then 366 else 365
  {
  }

  /** Days from 0001-01-01 to January 1st of year `y`. */
  function DaysBeforeYear(y: int): int {
    var p := y - 1;
    365 * p + p / 4 - p / 100 + p / 400
  }

  lemma DivStep4(y: int)
    ensures y / 4 == (y - 1) / 4 + (if y % 4 == 0 then 1 else 0)
  {
  }

  lemma DivStep100(y: int)
    ensures y / 100 == (y - 1) / 100 + (if y % 100 == 0 then 1 else 0)
  {
  }

  lemma DivStep400(y: int)
    ensures y / 400 == (y - 1) / 400 + (if y % 400 == 0 then 1 else 0)
  {
  }

  lemma MultipleOf4(y: int)
    requires y % 100 == 0
    ensures y % 4 == 0
  {
    var q := y / 100;
    assert y == 4 * (25 * q);
  }

  lemma MultipleOf100(y: int)
    requires y % 400 == 0
    ensures y % 100 == 0
  {
    var q := y / 400;
    assert y == 100 * (4 * q);
  }

  /** One more year adds that year's length. */
  lemma YearLength(y: int)
    ensures DaysBeforeYear(y + 1) == DaysBeforeYear(y) + (if IsLeap(y) then 366 else 365)
  {
    DivStep4(y);
    DivStep100(y);
    DivStep400(y);
    if y % 100 == 0 { MultipleOf4(y); }
    if y % 400 == 0 { MultipleOf100(y); }
  }

  const EpochDays := 719162

  /** The day number since 1970-01-01 of a date. */
  function DayNumber(t: DateTime): int
    requires 1 <= t.month <= 12
  {
    DaysBeforeYear(t.year) - EpochDays + DaysBeforeMonth(t.year, t.month) + t.day - 1
  }

  /** `calendar.timegm`: the seconds since the epoch, negative before it. */
  function Timestamp(t: DateTime): int
    requires 1 <= t.month <= 12
  {
    DayNumber(t) * 86400 + t.hour * 3600 + t.minute * 60 + t.second
  }

  /** The value of a two-digit field. */
  function Value2(a: char, b: char): (n: nat)
    requires IsDigit(a) && IsDigit(b)
    ensures n < 100
  {
    DigitValue(a) * 10 + DigitValue(b)
  }

  /** The value of the four-digit field starting at `i`. */
  function Value4(s: string, i: nat): (n: nat)
    requires i + 4 <= |s|
    requires IsDigit(s[i]) && IsDigit(s[i + 1]) && IsDigit(s[i + 2]) && IsDigit(s[i + 3])
    ensures n < 10000
  {
    Value2(s[i], s[i + 1]) * 100 + Value2(s[i + 2], s[i + 3])
  }

  /** The text has the compact shape: eight digits, 'T', six digits.
      `strptime` matches the literal letter regardless of case. */
  predicate Compact(s: string) {
    |s| == 15 && (s[8] == 'T' || s[8] == 't') && forall k :: 0 <= k < 15 && k != 8 ==> IsDigit(s[k])
  }

  /** `datetime.strptime(s, "%Y%m%dT%H%M%S")` on the fixed-width form:
      None stands for the `ValueError` raised on anything else. */
  function Parse(s: string): (r: Option<DateTime>)
    ensures r.Some? ==> Valid(r.value) && Compact(s)
  {
    if !Compact(s) then None
    else
      var t := DateTime(Value4(s, 0), Value2(s[4], s[5]), Value2(s[6], s[7]),
                        Value2(s[9], s[10]), Value2(s[11], s[12]), Value2(s[13], s[14]));
      if Valid(t) then Some(t) else None
  }

  /** `str_to_time_stamp`. */
  function StrToTimestamp(s: string): (r: Option<int>)
    ensures r.Some? <==> Parse(s).Some?
    ensures r.Some? ==> r.value == Timestamp(Parse(s).value)
  {
    match Parse(s)
    case None => None
    case Some(t) => Some(Timestamp(t))
  }

  /** Two-digit, zero-padded rendering. */
  function Pad2(n: nat): (s: string)
    requires n < 100
    ensures |s| == 2 && AllDigits(s)
  {
    [DigitChar(n / 10), DigitChar(n % 10)]
  }

  function Pad4(n: nat): (s: string)
    requires n < 10000
    ensures |s| == 4 && AllDigits(s)
  {
    Pad2(n / 100) + Pad2(n % 100)
  }

  /** The compact text of a valid datetime. */
  function Format(t: DateTime): (s: string)
    requires Valid(t)
    ensures |s| == 15 && s[8] == 'T'
  {
    Pad4(t.year) + Pad2(t.month) + Pad2(t.day) + "T" + Pad2(t.hour) + Pad2(t.minute) + Pad2(t.second)
  }

  lemma Pad2Value(n: nat)
    requires n < 100
    ensures Value2(Pad2(n)[0], Pad2(n)[1]) == n
  {
    DigitRoundTrip(n / 10);
    DigitRoundTrip(n % 10);
  }

  lemma Pad2Text(a: char, b: char)
    requires IsDigit(a) && IsDigit(b)
    ensures Pad2(Value2(a, b)) == [a, b]
  {
    var n := Value2(a, b);
    assert n / 10 == DigitValue(a) && n % 10 == DigitValue(b);
  }

  /** Where each field of a datetime sits in its text. */
  lemma FormatChars(t: DateTime)
    requires Valid(t)
    ensures Compact(Format(t))
    ensures Format(t)[0] == Pad2(t.year / 100)[0] && Format(t)[1] == Pad2(t.year / 100)[1]
    ensures Format(t)[2] == Pad2(t.year % 100)[0] && Format(t)[3] == Pad2(t.year % 100)[1]
    ensures Format(t)[4] == Pad2(t.month)[0] && Format(t)[5] == Pad2(t.month)[1]
    ensures Format(t)[6] == Pad2(t.day)[0] && Format(t)[7] == Pad2(t.day)[1]
    ensures Format(t)[9] == Pad2(t.hour)[0] && Format(t)[10] == Pad2(t.hour)[1]
    ensures Format(t)[11] == Pad2(t.minute)[0] && Format(t)[12] == Pad2(t.minute)[1]
    ensures Format(t)[13] == Pad2(t.second)[0] && Format(t)[14] == Pad2(t.second)[1]
  {
  }

  /** Reading back the text of a datetime gives that datetime. */
  lemma ParseFormat(t: DateTime)
    requires Valid(t)
    ensures Parse(Format(t)) == Some(t)
  {
    var s := Format(t);
    FormatChars(t);
    Pad2Value(t.year / 100);
    Pad2Value(t.year % 100);
    Pad2Value(t.month);
    Pad2Value(t.day);
    Pad2Value(t.hour);
    Pad2Value(t.minute);
    Pad2Value(t.second);
    var u := DateTime(Value4(s, 0), Value2(s[4], s[5]), Value2(s[6], s[7]),
                      Value2(s[9], s[10]), Value2(s[11], s[12]), Value2(s[13], s[14]));
    assert u.year == t.year;
    assert u == t;
  }

  /** The fields of an accepted text, as `Parse` reads them. */
  lemma ParseFields(s: string)
    requires Parse(s).Some?
    ensures Compact(s)
    ensures var t := Parse(s).value;
      && t.year / 100 == Value2(s[0], s[1]) && t.year % 100 == Value2(s[2], s[3])
      && t.month == Value2(s[4], s[5]) && t.day == Value2(s[6], s[7])
      && t.hour == Value2(s[9], s[10]) && t.minute == Value2(s[11], s[12]) && t.second == Value2(s[13], s[14])
  {
    var hi := Value2(s[0], s[1]);
    var lo := Value2(s[2], s[3]);
    assert Parse(s).value.year == hi * 100 + lo;
  }

  /** A text of the compact length, cut into its fields. */
  lemma SpellOut(s: string)
    requires |s| == 15
    ensures s[8 := 'T'] == [s[0], s[1]] + [s[2], s[3]] + [s[4], s[5]] + [s[6], s[7]] + "T"
                 + [s[9], s[10]] + [s[11], s[12]] + [s[13], s[14]]
  {
  }

  /** Every accepted text is the text of what it was read as, up to the
      case of its 'T': the format has one spelling per datetime and case. */
  lemma FormatParse(s: string)
    requires Parse(s).Some?
    ensures Format(Parse(s).value) == s[8 := 'T']
    ensures s[8] == 'T' ==> Format(Parse(s).value) == s
  {
    var t := Parse(s).value;
    ParseFields(s);
    Pad2Text(s[0], s[1]);
    Pad2Text(s[2], s[3]);
    Pad2Text(s[4], s[5]);
    Pad2Text(s[6], s[7]);
    Pad2Text(s[9], s[10]);
    Pad2Text(s[11], s[12]);
    Pad2Text(s[13], s[14]);
    SpellOut(s);
  }

  /** The calendar day after the date of `t`, same time of day. */
  function NextDay(t: DateTime): (u: DateTime)
    requires Valid(t) && !(t.year == 9999 && t.month == 12 && t.day == 31)
    ensures Valid(u)
  {
    if t.day < DaysInMonth(t.year, t.month) then t.(day := t.day + 1)
    else if t.month < 12 then t.(month := t.month + 1, day := 1)
    else t.(year := t.year + 1, month := 1, day := 1)
  }

  /** The day after is 86400 seconds later, across month and year ends. */
  lemma NextDayAddsADay(t: DateTime)
    requires Valid(t) && !(t.year == 9999 && t.month == 12 && t.day == 31)
    ensures Timestamp(NextDay(t)) == Timestamp(t) + 86400
  {
    MonthLengths(t.year, t.month);
    if t.month == 12 && t.day == 31 {
      YearLength(t.year);
    }
  }

  /** The second after `t`. */
  function NextSecond(t: DateTime): (u: DateTime)
    requires Valid(t)
    requires !(t.year == 9999 && t.month == 12 && t.day == 31 && t.hour == 23 && t.minute == 59 && t.second == 59)
    ensures Valid(u)
  {
    if t.second < 59 then t.(second := t.second + 1)
    else if t.minute < 59 then t.(minute := t.minute + 1, second := 0)
    else if t.hour < 23 then t.(hour := t.hour + 1, minute := 0, second := 0)
    else NextDay(t).(hour := 0, minute := 0, second := 0)
  }

  /** The next second is one second later: the timestamp counts seconds
      without gaps. */
  lemma NextSecondAddsOne(t: DateTime)
    requires Valid(t)
    requires !(t.year == 9999 && t.month == 12 && t.day == 31 && t.hour == 23 && t.minute == 59 && t.second == 59)
    ensures Timestamp(NextSecond(t)) == Timestamp(t) + 1
  {
    if t.second == 59 && t.minute == 59 && t.hour == 23 {
      NextDayAddsADay(t);
      assert DayNumber(NextSecond(t)) == DayNumber(NextDay(t));
    }
  }

  /** A time of day counts seconds from midnight of the same date. */
  lemma SameDay(t: DateTime, u: DateTime)
    requires Valid(t) && Valid(u)
    requires t.year == u.year && t.month == u.month && t.day == u.day
    ensures Timestamp(u) - Timestamp(t)
      == (u.hour - t.hour) * 3600 + (u.minute - t.minute) * 60 + (u.second - t.second)
  {
  }

  /** The epoch itself is timestamp 0. */
  lemma EpochIsZero()
    ensures StrToTimestamp("19700101T000000") == Some(0)
  {
    var t := DateTime(1970, 1, 1, 0, 0, 0);
    ParseFormat(t);
    FormatOfEpoch();
  }

  lemma FormatOfEpoch()
    ensures Format(DateTime(1970, 1, 1, 0, 0, 0)) == "19700101T000000"
  {
  }

  /** The trip timed in the Geovelo client's tests: leaving at 14:27:25 and
      arriving at 15:20:00 on 2016-10-10 is 3155 seconds (52 min 35 s). */
  lemma GeoveloTripDuration()
    ensures StrToTimestamp("20161010T152000").Some?
    ensures StrToTimestamp("20161010T142725").Some?
    ensures StrToTimestamp("20161010T152000").value - 3155 == StrToTimestamp("20161010T142725").value
  {
    var arrival := DateTime(2016, 10, 10, 15, 20, 0);
    var departure := DateTime(2016, 10, 10, 14, 27, 25);
    ParseFormat(arrival);
    ParseFormat(departure);
    FormatOfTrip();
    SameDay(departure, arrival);
  }

  lemma FormatOfTrip()
    ensures Format(DateTime(2016, 10, 10, 15, 20, 0)) == "20161010T152000"
    ensures Format(DateTime(2016, 10, 10, 14, 27, 25)) == "20161010T142725"
  {
  }

  /** Text that is not in the compact form is refused. */
  lemma MalformedRefused(s: string)
    requires |s| != 15 || (s[8] != 'T' && s[8] != 't')
    ensures StrToTimestamp(s) == None
  {
  }

  /** The separator may be written in lower case, with the same meaning. */
  lemma LowerCaseT(s: string)
    requires |s| == 15 && s[8] == 't'
    ensures StrToTimestamp(s) == StrToTimestamp(s[8 := 'T'])
  {
    var u := s[8 := 'T'];
    assert forall k :: 0 <= k < 15 && k != 8 ==> u[k] == s[k];
  }

  /** "20161010t152000" reads as "20161010T152000". */
  lemma LowerCaseTExample()
    ensures StrToTimestamp("20161010t152000").Some?
    ensures StrToTimestamp("20161010t152000") == StrToTimestamp("20161010T152000")
  {
    LowerCaseT("20161010t152000");
    assert "20161010t152000"[8 := 'T'] == "20161010T152000";
    GeoveloTripDuration();
  }

  /** An impossible date such as February 30th is refused. */
  lemma February30Refused()
    ensures StrToTimestamp("20170230T000000") == None
  {
    var s := "20170230T000000";
    assert Compact(s);
    assert Value2(s[4], s[5]) == 2 && Value2(s[6], s[7]) == 30;
  }
}
