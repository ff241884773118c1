/** validation/regexs.go: the two regular expressions of the validators,
    written out as predicates over strings that follow the expressions
    alternative by alternative, and proved equal to what they are meant to
    say: a character class for event types, and a calendar-correct
    date-time in a profile of the date-time format of section 5.6 of RFC 3339. */
module ValidationRegexs {

  // ---------------------------------------------------------------- EventTypeRegEx

  /** `[a-zA-Z0-9.\-]` */
  predicate EventTypeChar(c: char) {
    ('a' <= c <= 'z') || ('A' <= c <= 'Z') || ('0' <= c <= '9') || c == '.' || c == '-'
  }

  /** `^[a-zA-Z0-9.\-]*$`, the star unrolled one character at a time. It
      matches exactly the strings made only of letters, digits, dots and
      dashes, the empty string included. */
  predicate MatchesEventType(s: string): (b: bool)
    ensures b <==> forall i :: 0 <= i < |s| ==> EventTypeChar(s[i])
  {
    s == [] || (EventTypeChar(s[0]) && MatchesEventType(s[1..]))
  }

  lemma EventTypeAccepts(good: string)
    requires good == "my.valid.event.type.v1"
    ensures MatchesEventType(good)
  {
    forall i | 0 <= i < |good| ensures EventTypeChar(good[i]) {}
  }

  lemma EventTypeRejects(bad: string)
    requires bad == "my.invalid.event.type.v1@"
    ensures !MatchesEventType(bad)
  {
    assert !EventTypeChar(bad[24]);
  }

  // ---------------------------------------------------------------- Iso8601RegEx, as written

  /** `\d`, which in Go's syntax is an ASCII digit only. */
  predicate IsDigit(c: char) { '0' <= c <= '9' }

  /** `0[1-9]|1[0-2]` */
  predicate AnyMonth(a: char, b: char) {
    (a == '0' && '1' <= b <= '9') || (a == '1' && '0' <= b <= '2')
  }

  /** `0[1-9]|1\d|2[0-8]` */
  predicate Day1To28(a: char, b: char) {
    (a == '0' && '1' <= b <= '9') || (a == '1' && IsDigit(b)) || (a == '2' && '0' <= b <= '8')
  }

  /** `0[13-9]|1[0-2]` */
  predicate MonthNotFebruary(a: char, b: char) {
    (a == '0' && (b == '1' || '3' <= b <= '9')) || (a == '1' && '0' <= b <= '2')
  }

  /** `29|30` */
  predicate Day29Or30(a: char, b: char) {
    (a == '2' && b == '9') || (a == '3' && b == '0')
  }

  /** `0[13578]|1[02]` */
  predicate LongMonth(a: char, b: char) {
    (a == '0' && (b == '1' || b == '3' || b == '5' || b == '7' || b == '8')) || (a == '1' && (b == '0' || b == '2'))
  }

  /** `0[48]|[2468][048]|[13579][26]`: a two-digit multiple of four other than 00. */
  predicate QuadrennialPair(a: char, b: char) {
    (a == '0' && (b == '4' || b == '8'))
    || ((a == '2' || a == '4' || a == '6' || a == '8') && (b == '0' || b == '4' || b == '8'))
    || ((a == '1' || a == '3' || a == '5' || a == '7' || a == '9') && (b == '2' || b == '6'))
  }

  /** `[2468][048]|[13579][26]`: the same with 00 and the pairs starting with 0 left out. */
  predicate CenturyPair(a: char, b: char) {
    ((a == '2' || a == '4' || a == '6' || a == '8') && (b == '0' || b == '4' || b == '8'))
    || ((a == '1' || a == '3' || a == '5' || a == '7' || a == '9') && (b == '2' || b == '6'))
  }

  /** `[1-9]\d(?:0[48]|[2468][048]|[13579][26])|(?:[2468][048]|[13579][26])00` */
  predicate LeapYearDigits(y0: char, y1: char, y2: char, y3: char) {
    ('1' <= y0 <= '9' && IsDigit(y1) && QuadrennialPair(y2, y3))
    || (CenturyPair(y0, y1) && y2 == '0' && y3 == '0')
  }

  /** The date part of the expression, ten characters. */
  predicate DateRegex(s: string) {
    |s| == 10 &&
    (('1' <= s[0] <= '9' && IsDigit(s[1]) && IsDigit(s[2]) && IsDigit(s[3]) && s[4] == '-' && s[7] == '-' &&
      ((AnyMonth(s[5], s[6]) && Day1To28(s[8], s[9]))
       || (MonthNotFebruary(s[5], s[6]) && Day29Or30(s[8], s[9]))
       || (LongMonth(s[5], s[6]) && s[8] == '3' && s[9] == '1')))
     || (LeapYearDigits(s[0], s[1], s[2], s[3]) && s[4] == '-' && s[5] == '0' && s[6] == '2'
         && s[7] == '-' && s[8] == '2' && s[9] == '9'))
  }

  /** `(?:[01]\d|2[0-3]):[0-5]\d:[0-5]\d`, eight characters. */
  predicate TimeRegex(t: string) {
    |t| == 8 &&
    (((t[0] == '0' || t[0] == '1') && IsDigit(t[1])) || (t[0] == '2' && '0' <= t[1] <= '3'))
    && t[2] == ':' && '0' <= t[3] <= '5' && IsDigit(t[4])
    && t[5] == ':' && '0' <= t[6] <= '5' && IsDigit(t[7])
  }

  /** `Z|[+-][01]\d:[0-5]\d` up to the end of the input. */
  predicate Zone(z: string) {
    z == "Z" ||
    (|z| == 6 && (z[0] == '+' || z[0] == '-') && (z[1] == '0' || z[1] == '1') && IsDigit(z[2])
     && z[3] == ':' && '0' <= z[4] <= '5' && IsDigit(z[5]))
  }

  /** The number of digits at the start of s. */
  function LeadingDigits(s: string): (n: nat)
    ensures n <= |s|
    ensures forall i :: 0 <= i < n ==> IsDigit(s[i])
    ensures n < |s| ==> !IsDigit(s[n])
  {
    if s != [] && IsDigit(s[0]) then 1 + LeadingDigits(s[1..]) else 0
  }

  /** `(?:\.\d{1,9})?` followed by the zone. A zone never starts with a
      digit, so a fraction, when present, is all the digits after the dot. */
  predicate Tail(s: string) {
    Zone(s) ||
    (|s| > 0 && s[0] == '.' && 1 <= LeadingDigits(s[1..]) <= 9 && Zone(s[1 + LeadingDigits(s[1..])..]))
  }

  /** `Iso8601RegEx`: date, `T`, time, optional fraction and zone. */
  predicate Iso8601(s: string): (b: bool)
    ensures b ==> |s| >= 20
    ensures b ==> s[4] == '-' && s[7] == '-' && s[10] == 'T' && s[13] == ':' && s[16] == ':'
    ensures b ==> s[|s| - 1] == 'Z' || IsDigit(s[|s| - 1])
  {
    |s| >= 20 && DateRegex(s[..10]) && s[10] == 'T' && TimeRegex(s[11..19]) && Tail(s[19..])
  }

  /** Any way of reading a fraction of 1 to 9 digits before a zone is the
      one `Tail` takes. */
  lemma FractionSplit(s: string, k: nat)
    requires 2 <= k <= 10 && k <= |s| && s[0] == '.'
    requires forall i :: 1 <= i < k ==> IsDigit(s[i])
    requires Zone(s[k..])
    ensures Tail(s)
  {
    var rest := s[1..];
    forall i | 0 <= i < k - 1 ensures IsDigit(rest[i]) {
      assert rest[i] == s[i + 1];
    }
    assert !IsDigit(s[k]);
    assert LeadingDigits(rest) >= k - 1 by {
      LeadingDigitsAtLeast(rest, k - 1);
    }
    assert rest[k - 1] == s[k];
  }

  lemma {:induction false} LeadingDigitsAtLeast(s: string, n: nat)
    requires n <= |s| && forall i :: 0 <= i < n ==> IsDigit(s[i])
    ensures LeadingDigits(s) >= n
    decreases n
  {
    if n > 0 {
      LeadingDigitsAtLeast(s[1..], n - 1);
    }
  }

  // ---------------------------------------------------------------- what the expression means

  function Val(c: char): int { c as int - '0' as int }

  function Two(a: char, b: char): int { 10 * Val(a) + Val(b) }

  predicate IsLeapYear(y: int) {
    y % 4 == 0 && (y % 100 != 0 || y % 400 == 0)
  }

  function DaysInMonth(year: int, month: int): int {
    if month == 2 then (if IsLeapYear(year) then 29 else 28)
    else if month == 4 || month == 6 || month == 9 || month == 11 then 30
    else 31
  }

  /** `YYYY-MM-DD` naming a day of the Gregorian calendar in the years 1000 to 9999. */
  predicate CalendarDate(s: string) {
    |s| == 10 && IsDigit(s[0]) && IsDigit(s[1]) && IsDigit(s[2]) && IsDigit(s[3]) && s[4] == '-'
    && IsDigit(s[5]) && IsDigit(s[6]) && s[7] == '-' && IsDigit(s[8]) && IsDigit(s[9])
    && 1000 <= 100 * Two(s[0], s[1]) + Two(s[2], s[3])
    && 1 <= Two(s[5], s[6]) <= 12
    && 1 <= Two(s[8], s[9]) <= DaysInMonth(100 * Two(s[0], s[1]) + Two(s[2], s[3]), Two(s[5], s[6]))
  }

  /** `HH:MM:SS` with hour 00 to 23 and minute and second 00 to 59. */
  predicate ClockTime(t: string) {
    |t| == 8 && IsDigit(t[0]) && IsDigit(t[1]) && t[2] == ':' && IsDigit(t[3]) && IsDigit(t[4])
    && t[5] == ':' && IsDigit(t[6]) && IsDigit(t[7])
    && Two(t[0], t[1]) <= 23 && Two(t[3], t[4]) <= 59 && Two(t[6], t[7]) <= 59
  }

  /** An offset hour 00 to 19 and minute 00 to 59, or Z. */
  lemma ZoneMeaning(z: string)
    requires |z| == 6 && (z[0] == '+' || z[0] == '-') && z[3] == ':'
    ensures Zone(z) <==> (IsDigit(z[1]) && IsDigit(z[2]) && IsDigit(z[4]) && IsDigit(z[5])
      && Two(z[1], z[2]) <= 19 && Two(z[4], z[5]) <= 59)
  {
  }

  lemma PairMeanings(a: char, b: char)
    ensures AnyMonth(a, b) <==> IsDigit(a) && IsDigit(b) && 1 <= Two(a, b) <= 12
    ensures Day1To28(a, b) <==> IsDigit(a) && IsDigit(b) && 1 <= Two(a, b) <= 28
    ensures MonthNotFebruary(a, b) <==> IsDigit(a) && IsDigit(b) && 1 <= Two(a, b) <= 12 && Two(a, b) != 2
    ensures Day29Or30(a, b) <==> IsDigit(a) && IsDigit(b) && 29 <= Two(a, b) <= 30
    ensures LongMonth(a, b) <==> IsDigit(a) && IsDigit(b) && Two(a, b) in {1, 3, 5, 7, 8, 10, 12}
  {
  }

  /** The two-digit patterns are the multiples of four they are meant to be. */
  lemma QuadrennialMeaning(a: char, b: char)
    requires IsDigit(a) && IsDigit(b)
    ensures QuadrennialPair(a, b) <==> Two(a, b) % 4 == 0 && Two(a, b) != 0
    ensures CenturyPair(a, b) <==> Two(a, b) % 4 == 0 && a != '0'
  {
    if a == '0' {} else if a == '1' {} else if a == '2' {} else if a == '3' {} else if a == '4' {}
    else if a == '5' {} else if a == '6' {} else if a == '7' {} else if a == '8' {} else {}
  }

  /** A year of four digits is a leap year iff its last two digits are a
      multiple of four other than 00, or they are 00 and the first two are
      a multiple of four. */
  lemma LeapYearByPairs(hi: int, lo: int)
    requires 0 <= hi < 100 && 0 <= lo < 100
    ensures IsLeapYear(100 * hi + lo) <==> (lo % 4 == 0 && lo != 0) || (lo == 0 && hi % 4 == 0)
  {
    var y := 100 * hi + lo;
    assert y == 4 * (25 * hi) + lo;
    assert y % 4 == lo % 4;
    assert y % 100 == lo;
    if lo == 0 {
      assert y == 400 * (hi / 4) + 100 * (hi % 4);
      assert y % 400 == 100 * (hi % 4);
    }
  }

  /** The leap-year alternative of the expression is a Gregorian leap year from 1000 on. */
  lemma LeapYearDigitsMeaning(y0: char, y1: char, y2: char, y3: char)
    requires IsDigit(y0) && IsDigit(y1) && IsDigit(y2) && IsDigit(y3)
    ensures LeapYearDigits(y0, y1, y2, y3) <==>
      1000 <= 100 * Two(y0, y1) + Two(y2, y3) && IsLeapYear(100 * Two(y0, y1) + Two(y2, y3))
  {
    QuadrennialMeaning(y0, y1);
    QuadrennialMeaning(y2, y3);
    LeapYearByPairs(Two(y0, y1), Two(y2, y3));
  }

  /** The date alternatives of the expression accept exactly the calendar dates. */
  lemma DateRegexMeaning(s: string)
    ensures DateRegex(s) <==> CalendarDate(s)
  {
    if |s| == 10 {
      PairMeanings(s[5], s[6]);
      PairMeanings(s[8], s[9]);
      if IsDigit(s[0]) && IsDigit(s[1]) && IsDigit(s[2]) && IsDigit(s[3]) {
        LeapYearDigitsMeaning(s[0], s[1], s[2], s[3]);
      }
    }
  }

  /** The time part accepts exactly the clock times. */
  lemma TimeRegexMeaning(t: string)
    ensures TimeRegex(t) <==> ClockTime(t)
  {
  }

  /** The whole expression: a calendar date, T, a clock time, then an
      optional fraction and a zone. */
  lemma Iso8601Meaning(s: string)
    ensures Iso8601(s) <==>
      |s| >= 20 && CalendarDate(s[..10]) && s[10] == 'T' && ClockTime(s[11..19]) && Tail(s[19..])
  {
    if |s| >= 20 {
      DateRegexMeaning(s[..10]);
      TimeRegexMeaning(s[11..19]);
    }
  }

  /** Days 1 to 28 exist in every month, 29 and 30 in all but February,
      31 in the long months, and 29 February only in leap years. */
  lemma DaysInMonthTable(year: int, month: int)
    requires 1 <= month <= 12
    ensures DaysInMonth(year, month) >= 28
    ensures month != 2 ==> DaysInMonth(year, month) >= 30
    ensures DaysInMonth(year, month) == 31 <==> month in {1, 3, 5, 7, 8, 10, 12}
    ensures month == 2 ==> (DaysInMonth(year, month) == 29 <==> IsLeapYear(year))
  {
  }

  /** A date, `T`, a time and a tail put together are accepted. */
  lemma Iso8601Compose(date: string, time: string, tail: string)
    requires DateRegex(date) && TimeRegex(time) && Tail(tail)
    ensures Iso8601(date + "T" + time + tail)
  {
    var s := date + "T" + time + tail;
    assert s[..10] == date;
    assert s[11..19] == time;
    assert s[19..] == tail;
  }

  /** A date-time with milliseconds and Z is accepted. */
  lemma AcceptsMilliseconds(date: string, time: string, tail: string)
    requires date == "2024-01-01" && time == "00:00:00" && tail == ".000Z"
    ensures Iso8601(date + "T" + time + tail)
  {
    assert tail[4..] == "Z";
    FractionSplit(tail, 4);
    Iso8601Compose(date, time, tail);
  }

  /** A date-time with a numeric offset and no fraction is accepted. */
  lemma AcceptsOffset(date: string, time: string, zone: string)
    requires date == "2024-05-28" && time == "11:21:25" && zone == "+02:00"
    ensures Iso8601(date + "T" + time + zone)
  {
    assert Zone(zone);
    Iso8601Compose(date, time, zone);
  }

  /** A time without seconds is refused. */
  lemma MissingSecondsRejected(s: string)
    requires s == "2024-01-01T00:00Z"
    ensures !Iso8601(s)
  {
  }

  /** 29 February is a date in 2024 and 2000, not in 2023 or 1900. */
  lemma LeapDayExamples(a: string, b: string, c: string, d: string)
    requires a == "2024-02-29" && b == "2000-02-29" && c == "2023-02-29" && d == "1900-02-29"
    ensures DateRegex(a) && DateRegex(b) && !DateRegex(c) && !DateRegex(d)
  {
    DateRegexMeaning(a);
    DateRegexMeaning(b);
    DateRegexMeaning(c);
    DateRegexMeaning(d);
  }
}
