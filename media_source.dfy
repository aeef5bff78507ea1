/** custom_components/petkit/media_source.py: the string helpers of the media browser
    (date and timestamp titles, extension tables, thumbnail paths, device names) and the
    loop that turns a directory listing into browse items. */
module MediaSource {
  import opened Common

  // ---------------------------------------------------------------------------
  // Fixed-width decimal fields

  function Pad2(n: int): (r: string)
    requires 0 <= n < 100
    ensures |r| == 2 && IsDigit(r[0]) && IsDigit(r[1])
  {
    [DigitChar(n / 10), DigitChar(n % 10)]
  }

  function Pad4(n: int): (r: string)
    requires 0 <= n < 10000
    ensures |r| == 4 && forall i :: 0 <= i < 4 ==> IsDigit(r[i])
  {
    Pad2(n / 100) + Pad2(n % 100)
  }

  /** The value of the two digits at i. */
  function Two(s: string, i: nat): int
    requires i + 1 < |s| && IsDigit(s[i]) && IsDigit(s[i + 1])
  {
    10 * DigitValue(s[i]) + DigitValue(s[i + 1])
  }

  lemma Pad2Inverts(s: string, i: nat)
    requires i + 1 < |s| && IsDigit(s[i]) && IsDigit(s[i + 1])
    ensures Pad2(Two(s, i)) == s[i..i + 2]
  {
    var n := Two(s, i);
    assert n / 10 == DigitValue(s[i]) && n % 10 == DigitValue(s[i + 1]);
  }

  lemma TwoIsDigitsValue(s: string, i: nat)
    requires i + 1 < |s| && IsDigit(s[i]) && IsDigit(s[i + 1])
    ensures DigitsValue(s[i..i + 2]) == Two(s, i)
  {
    var t := s[i..i + 2];
    assert t[..1][..0] == [];
    assert t[..|t| - 1] == t[..1];
    assert t[0] == s[i] && t[1] == s[i + 1];
    assert DigitsValue(t[..1]) == DigitValue(s[i]);
  }

  lemma Pad4Inverts(s: string)
    requires |s| >= 4 && forall i :: 0 <= i < 4 ==> IsDigit(s[i])
    ensures DigitsValue(s[..4]) == 100 * Two(s, 0) + Two(s, 2)
    ensures Pad4(DigitsValue(s[..4])) == s[..4]
  {
    var t := s[..4];
    assert t[..3][..2] == t[..2] && t[..2][..1] == t[..1] && t[..1][..0] == [];
    assert t[..|t| - 1] == t[..3];
    var a, b, c, d := DigitValue(s[0]), DigitValue(s[1]), DigitValue(s[2]), DigitValue(s[3]);
    assert DigitsValue(t[..1]) == a;
    assert DigitsValue(t[..2]) == 10 * a + b;
    assert DigitsValue(t[..3]) == 100 * a + 10 * b + c;
    var n := DigitsValue(t);
    assert n == 100 * Two(s, 0) + Two(s, 2);
    assert n / 100 == Two(s, 0) && n % 100 == Two(s, 2);
    Pad2Inverts(s, 0);
    Pad2Inverts(s, 2);
    assert t == s[0..2] + s[2..4];
  }

  // ---------------------------------------------------------------------------
  // convert_date

  predicate IsLeap(y: int) {
    y % 4 == 0 && (y % 100 != 0 || y % 400 == 0)
  }

  function DaysInMonth(y: int, m: int): int
    requires 1 <= m <= 12
  {
    if m == 2 then (if IsLeap(y) then 29 else 28)
    else if m in {4, 6, 9, 11} then 30
    else 31
  }

  predicate AllDigits(s: string) {
    forall i :: 0 <= i < |s| ==> IsDigit(s[i])
  }

  function Dv(c: char): int {
    if IsDigit(c) then DigitValue(c) else 0
  }

  /** The alternatives of strptime's month pattern at i, in the order the regex tries
      them: 1[0-2], 0[1-9], [1-9]. Each gives the month and where matching continues. */
  function MonthAlts(s: string, i: nat): seq<(int, nat)> {
    (if i + 1 < |s| && s[i] == '1' && '0' <= s[i + 1] <= '2' then [(10 + Dv(s[i + 1]), i + 2)] else [])
    + (if i + 1 < |s| && s[i] == '0' && '1' <= s[i + 1] <= '9' then [(Dv(s[i + 1]), i + 2)] else [])
    + (if i < |s| && '1' <= s[i] <= '9' then [(Dv(s[i]), i + 1)] else [])
  }

  /** The alternatives of strptime's day pattern at i, in order: 3[01], [12]\d, 0[1-9],
      [1-9], and a space followed by [1-9]. */
  function DayAlts(s: string, i: nat): seq<(int, nat)> {
    (if i + 1 < |s| && s[i] == '3' && '0' <= s[i + 1] <= '1' then [(30 + Dv(s[i + 1]), i + 2)] else [])
    + (if i + 1 < |s| && '1' <= s[i] <= '2' && IsDigit(s[i + 1]) then [(10 * Dv(s[i]) + Dv(s[i + 1]), i + 2)] else [])
    + (if i + 1 < |s| && s[i] == '0' && '1' <= s[i + 1] <= '9' then [(Dv(s[i + 1]), i + 2)] else [])
    + (if i < |s| && '1' <= s[i] <= '9' then [(Dv(s[i]), i + 1)] else [])
    + (if i + 1 < |s| && s[i] == ' ' && '1' <= s[i + 1] <= '9' then [(Dv(s[i + 1]), i + 2)] else [])
  }

  /** The regex's first success after the month: the first month alternative for which a
      day alternative matches, with the first such day; (month, day, end of match). */
  function FirstMonthDay(s: string, months: seq<(int, nat)>): Option<(int, int, nat)>
    decreases |months|
  {
    if months == [] then None
    else
      var days := DayAlts(s, months[0].1);
      if days != [] then Some((months[0].0, days[0].0, days[0].1))
      else FirstMonthDay(s, months[1..])
  }

  /** datetime.strptime(s, "%Y%m%d") on ASCII input: four digits of year, then the
      regex's first month/day match, which must end the string; then the date must
      exist (year 0 and days past the month's end are errors). */
  function Strptime(s: string): Py<(int, int, int)> {
    if |s| < 4 || !AllDigits(s[..4]) then Raise(ValueError)
    else
      var y := DigitsValue(s[..4]);
      match FirstMonthDay(s, MonthAlts(s, 4))
      case None => Raise(ValueError)
      case Some((m, d, end)) =>
        if end != |s| then Raise(ValueError)
        else if y < 1 || !(1 <= m <= 12) || d < 1 || d > DaysInMonth(y, m) then Raise(ValueError)
        else Ok((y, m, d))
  }

  /** convert_date: "YYYYMMDD" to "DD/MM/YYYY", any other string unchanged. */
  function ConvertDate(s: string): string {
    if |s| != 8 || !AllDigits(s) then s
    else
      match Strptime(s)
      case Raise(_) => s
      case Ok((y, m, d)) => if y < 10000 && 0 <= m < 100 && 0 <= d < 100 then Pad2(d) + "/" + Pad2(m) + "/" + Pad4(y) else s
  }

  /** The reference: eight digits naming a real calendar date. */
  predicate IsCalendarDate(s: string) {
    |s| == 8 && AllDigits(s) &&
    var y, m, d := DigitsValue(s[..4]), DigitsValue(s[4..6]), DigitsValue(s[6..8]);
    1 <= y && 1 <= m <= 12 && 1 <= d <= DaysInMonth(y, m)
  }

  /** Reading dd/mm/yyyy back as yyyymmdd. */
  function DateBack(r: string): string
    requires |r| == 10
  {
    r[6..10] + r[3..5] + r[0..2]
  }

  /** On eight digits, the month alternatives are a two-digit month 01..12 first, or else
      only one-digit months. */
  lemma MonthAltsOnDigits(s: string)
    requires |s| == 8 && AllDigits(s)
    ensures 1 <= Two(s, 4) <= 12 ==> MonthAlts(s, 4) != [] && MonthAlts(s, 4)[0] == (Two(s, 4), 6)
    ensures forall k :: 0 <= k < |MonthAlts(s, 4)| && MonthAlts(s, 4)[k].1 != 5 ==>
              k == 0 && 1 <= Two(s, 4) <= 12 && MonthAlts(s, 4)[k] == (Two(s, 4), 6)
  {
  }

  /** On the last two of eight digits, the day alternatives are a two-digit day 01..31
      first, or else only one-digit days. */
  lemma DayAltsOnDigits(s: string)
    requires |s| == 8 && AllDigits(s)
    ensures 1 <= Two(s, 6) <= 31 ==> DayAlts(s, 6) != [] && DayAlts(s, 6)[0] == (Two(s, 6), 8)
    ensures !(1 <= Two(s, 6) <= 31) ==> forall k :: 0 <= k < |DayAlts(s, 6)| ==> DayAlts(s, 6)[k].1 == 7
  {
  }

  /** A day matched at 5 of 8 characters ends before the string does. */
  lemma DayAltsShort(s: string, i: nat)
    requires |s| == 8 && i <= 5
    ensures forall k :: 0 <= k < |DayAlts(s, i)| ==> DayAlts(s, i)[k].1 <= 7
  {
  }

  /** When every alternative after the first continues at 5, the first match, if any,
      ends at 7 at the latest. */
  lemma {:induction false} LaterMonthsShort(s: string, months: seq<(int, nat)>)
    requires |s| == 8
    requires forall k :: 0 <= k < |months| ==> months[k].1 == 5
    ensures FirstMonthDay(s, months).Some? ==> FirstMonthDay(s, months).value.2 <= 7
    decreases |months|
  {
    if months != [] {
      DayAltsShort(s, 5);
      LaterMonthsShort(s, months[1..]);
    }
  }

  /** strptime's regex accepts eight digits exactly when they split as four digits of
      year, a month 01..12 and a day 01..31, with those values. */
  lemma StrptimeMatch(s: string)
    requires |s| == 8 && AllDigits(s)
    ensures var r := FirstMonthDay(s, MonthAlts(s, 4));
            (r.Some? && r.value.2 == 8) <==> 1 <= Two(s, 4) <= 12 && 1 <= Two(s, 6) <= 31
    ensures var r := FirstMonthDay(s, MonthAlts(s, 4));
            r.Some? && r.value.2 == 8 ==> r.value.0 == Two(s, 4) && r.value.1 == Two(s, 6)
  {
    var ms := MonthAlts(s, 4);
    MonthAltsOnDigits(s);
    DayAltsOnDigits(s);
    if ms != [] && ms[0].1 == 6 {
      // The two-digit month comes first; the later alternatives continue at 5.
      assert forall k :: 0 <= k < |ms[1..]| ==> ms[1..][k].1 == 5 by {
        forall k | 0 <= k < |ms[1..]| ensures ms[1..][k].1 == 5 {
          assert ms[1..][k] == ms[k + 1];
        }
      }
      LaterMonthsShort(s, ms[1..]);
    } else {
      assert forall k :: 0 <= k < |ms| ==> ms[k].1 == 5;
      LaterMonthsShort(s, ms);
    }
  }

  /** convert_date is the calendar-date check: a real date is rewritten as DD/MM/YYYY from
      the same digits, anything else (not eight digits, month 13, 30 February, year 0)
      comes back unchanged. */
  lemma ConvertDateCharacterised(s: string)
    ensures ConvertDate(s) == if IsCalendarDate(s) then s[6..8] + "/" + s[4..6] + "/" + s[..4] else s
  {
    if |s| == 8 && AllDigits(s) {
      StrptimeMatch(s);
      TwoIsDigitsValue(s, 4);
      TwoIsDigitsValue(s, 6);
      Pad4Inverts(s);
      Pad2Inverts(s, 4);
      Pad2Inverts(s, 6);
      assert AllDigits(s[..4]);
    }
  }

  /** A converted date is ten characters with '/' at 2 and 5, and swapping the fields back
      gives the input. */
  lemma ConvertDateRoundTrip(s: string)
    requires IsCalendarDate(s)
    ensures |ConvertDate(s)| == 10 && ConvertDate(s)[2] == '/' && ConvertDate(s)[5] == '/'
    ensures DateBack(ConvertDate(s)) == s
  {
    ConvertDateCharacterised(s);
    var r := ConvertDate(s);
    assert r[6..10] == s[..4] && r[3..5] == s[4..6] && r[0..2] == s[6..8];
    assert s == s[..4] + s[4..6] + s[6..8];
  }

  /** The calendar-date check on eight digits, in terms of the digits' values. */
  lemma CalendarDateOfDigits(s: string)
    requires |s| == 8 && AllDigits(s)
    ensures IsCalendarDate(s) <==>
              var y, m, d := 100 * Two(s, 0) + Two(s, 2), Two(s, 4), Two(s, 6);
              1 <= y && 1 <= m <= 12 && 1 <= d <= DaysInMonth(y, m)
  {
    Pad4Inverts(s);
    TwoIsDigitsValue(s, 4);
    TwoIsDigitsValue(s, 6);
  }

  /** 29 February exists in 2024. */
  lemma LeapDayConverts(s: string)
    requires s == "20240229"
    ensures ConvertDate(s) == "29/02/2024"
  {
    CalendarDateOfDigits(s);
    ConvertDateCharacterised(s);
  }

  /** 29 February does not exist in 2023, a common year. */
  lemma MissingLeapDayStays(s: string)
    requires s == "20230229"
    ensures ConvertDate(s) == s
  {
    CalendarDateOfDigits(s);
    ConvertDateCharacterised(s);
  }

  /** Nor in 1900, a century year that is not a leap year. */
  lemma CenturyLeapDayStays(s: string)
    requires s == "19000229"
    ensures ConvertDate(s) == s
  {
    CalendarDateOfDigits(s);
    ConvertDateCharacterised(s);
  }

  /** Month 13 and year 0 are no dates. */
  lemma MalformedDatesStay(s: string)
    requires s == "20241301" || s == "00000101" || s == "2024-02-29"
    ensures ConvertDate(s) == s
  {
    ConvertDateCharacterised(s);
    if s != "2024-02-29" {
      CalendarDateOfDigits(s);
    }
  }

  // ---------------------------------------------------------------------------
  // str.split

  /** s.split(c) for a one-character separator. */
  function Split(s: string, c: char): (r: seq<string>)
    ensures |r| >= 1
    ensures |r| >= 2 <==> c in s
    decreases |s|
  {
    if |s| == 0 then [""]
    else
      var rest := Split(s[1..], c);
      if s[0] == c then [""] + rest else [[s[0]] + rest[0]] + rest[1..]
  }

  /** c.join(parts). */
  function Join(parts: seq<string>, c: char): string
    requires |parts| >= 1
    decreases |parts|
  {
    if |parts| == 1 then parts[0] else parts[0] + [c] + Join(parts[1..], c)
  }

  /** Splitting and joining again gives the string back. */
  lemma {:induction false} JoinSplit(s: string, c: char)
    ensures Join(Split(s, c), c) == s
    decreases |s|
  {
    if |s| > 0 {
      var rest := Split(s[1..], c);
      JoinSplit(s[1..], c);
      if s[0] != c {
        if |rest| > 1 {
          assert Join(rest, c) == rest[0] + [c] + Join(rest[1..], c);
          assert [[s[0]] + rest[0]] + rest[1..] == [[s[0]] + rest[0]] + rest[1..];
          assert ([[s[0]] + rest[0]] + rest[1..])[1..] == rest[1..];
        }
      }
    }
  }

  /** No piece contains the separator, and there is a second piece exactly when the
      separator occurs. */
  lemma {:induction false} SplitPieces(s: string, c: char)
    ensures forall k :: 0 <= k < |Split(s, c)| ==> c !in Split(s, c)[k]
    decreases |s|
  {
    if |s| > 0 {
      var rest := Split(s[1..], c);
      SplitPieces(s[1..], c);
      assert s == [s[0]] + s[1..];
      if s[0] != c {
        var r := [[s[0]] + rest[0]] + rest[1..];
        assert forall k :: 1 <= k < |r| ==> r[k] == rest[k];
      } else {
        var r := [""] + rest;
        assert forall k :: 1 <= k < |r| ==> r[k] == rest[k - 1];
      }
    }
  }

  /** A string without the separator is one piece. */
  lemma {:induction false} SplitNone(s: string, c: char)
    requires c !in s
    ensures Split(s, c) == [s]
    decreases |s|
  {
    if |s| > 0 {
      assert s == [s[0]] + s[1..];
      SplitNone(s[1..], c);
    }
  }

  /** The first piece is what comes before the first separator. */
  lemma {:induction false} SplitAtFirst(a: string, b: string, c: char)
    requires c !in a
    ensures Split(a + [c] + b, c) == [a] + Split(b, c)
    decreases |a|
  {
    if |a| > 0 {
      assert (a + [c] + b)[1..] == a[1..] + [c] + b;
      assert a == [a[0]] + a[1..];
      SplitAtFirst(a[1..], b, c);
    } else {
      assert a + [c] + b == [c] + b;
      assert ([c] + b)[1..] == b;
    }
  }

  // ---------------------------------------------------------------------------
  // extract_timestamp_and_convert

  /** The clock reading HH:MM:SS of a second of the day. */
  function Clock(t: int): (r: string)
    requires 0 <= t < 86400
    ensures |r| == 8 && r[2] == ':' && r[5] == ':'
  {
    Pad2(t / 3600) + ":" + Pad2(t / 60 % 60) + ":" + Pad2(t % 60)
  }

  /** Reading HH:MM:SS back as seconds of the day. */
  function ClockBack(r: string): int
    requires |r| == 8
  {
    3600 * (10 * Dv(r[0]) + Dv(r[1])) + 60 * (10 * Dv(r[3]) + Dv(r[4])) + (10 * Dv(r[6]) + Dv(r[7]))
  }

  lemma ClockRoundTrip(t: int)
    requires 0 <= t < 86400
    ensures ClockBack(Clock(t)) == t
  {
    var h, m, sec := t / 3600, t / 60 % 60, t % 60;
    assert Pad2(h)[0] == DigitChar(h / 10) && Pad2(h)[1] == DigitChar(h % 10);
    assert 10 * (h / 10) + h % 10 == h;
    assert 10 * (m / 10) + m % 10 == m;
    assert 10 * (sec / 10) + sec % 10 == sec;
    assert 3600 * h + 60 * m + sec == t;
  }

  /** The second of the local day a POSIX timestamp falls on, for a local time zone at a
      fixed offset from UTC (floor modulo, so times before 1970 are placed correctly). */
  function SecondOfDay(timestamp: int, utcOffset: int): int {
    (timestamp + utcOffset) % 86400
  }

  /** The local times `datetime` can hold: from 0001-01-01 00:00:00 up to, and not
      including, 10000-01-01 00:00:00, in seconds from 1970-01-01 00:00:00. */
  const FirstLocalSecond: int := -62135596800
  const EndLocalSecond: int := 253402300800

  /** fromtimestamp gives a datetime, rather than a ValueError for a year out of range. */
  predicate InYearRange(timestamp: int, utcOffset: int) {
    FirstLocalSecond <= timestamp + utcOffset < EndLocalSecond
  }

  /** extract_timestamp_and_convert: the field after the first '_' and before the next
      '_' or '.', read as a timestamp and shown as local HH:MM:SS; the file name itself
      when there is no '_' (IndexError), the field is not an integer, or its local year is
      outside 1..9999 (both ValueError). */
  function ExtractTimestamp(filename: string, utcOffset: int): string {
    var parts := Split(filename, '_');
    if |parts| < 2 then filename
    else
      match ParseInt(Split(parts[1], '.')[0])
      case None => filename
      case Some(timestamp) =>
        if InYearRange(timestamp, utcOffset) then Clock(SecondOfDay(timestamp, utcOffset)) else filename
  }

  lemma ExtractTimestampCases(filename: string, utcOffset: int)
    ensures '_' !in filename ==> ExtractTimestamp(filename, utcOffset) == filename
    ensures '_' in filename ==>
              var field := Split(Split(filename, '_')[1], '.')[0];
              ExtractTimestamp(filename, utcOffset) ==
                if ParseInt(field).None? || !InYearRange(ParseInt(field).value, utcOffset) then filename
                else Clock(SecondOfDay(ParseInt(field).value, utcOffset))
  {
    SplitPieces(filename, '_');
  }

  /** A title that is not the file name is a clock reading that gives the local second of
      the field's timestamp, which lies in the years datetime can hold, back. */
  lemma ExtractTimestampReadsBack(filename: string, utcOffset: int)
    requires ExtractTimestamp(filename, utcOffset) != filename
    ensures '_' in filename
    ensures var field := Split(Split(filename, '_')[1], '.')[0];
            ParseInt(field).Some? && InYearRange(ParseInt(field).value, utcOffset) &&
            ClockBack(ExtractTimestamp(filename, utcOffset)) == SecondOfDay(ParseInt(field).value, utcOffset)
  {
    ExtractTimestampCases(filename, utcOffset);
    var field := Split(Split(filename, '_')[1], '.')[0];
    ClockRoundTrip(SecondOfDay(ParseInt(field).value, utcOffset));
  }

  /** The piece after the first separator, when no other separator follows. */
  lemma SecondPiece(prefix: string, rest: string, c: char)
    requires c !in prefix && c !in rest
    ensures |Split(prefix + [c] + rest, c)| >= 2 && Split(prefix + [c] + rest, c)[1] == rest
  {
    SplitAtFirst(prefix, rest, c);
    SplitNone(rest, c);
  }

  /** The piece before the first separator, when the string has at most one, at the start of
      the suffix. */
  lemma FirstPiece(stem: string, suffix: string, c: char)
    requires c !in stem
    requires suffix == [] || suffix[0] == c
    ensures Split(stem + suffix, c)[0] == stem
  {
    if suffix == [] {
      assert stem + suffix == stem;
      SplitNone(stem, c);
    } else {
      assert stem + suffix == stem + [c] + suffix[1..];
      SplitAtFirst(stem, suffix[1..], c);
    }
  }

  /** The timestamp field of prefix_timestamp.ext is the timestamp. */
  lemma FieldOfRecording(prefix: string, digits: string, ext: string)
    requires '_' !in prefix && '_' !in ext && '.' !in digits && '_' !in digits
    requires ext == [] || ext[0] == '.'
    ensures |Split(prefix + "_" + digits + ext, '_')| >= 2
    ensures Split(Split(prefix + "_" + digits + ext, '_')[1], '.')[0] == digits
  {
    var rest := digits + ext;
    assert '_' !in rest;
    assert prefix + "_" + digits + ext == prefix + ['_'] + rest;
    SecondPiece(prefix, rest, '_');
    FirstPiece(digits, ext, '.');
  }

  /** A recording named prefix_timestamp.ext is titled with the local time of its
      timestamp, and keeps its name when that time is past the year 9999. */
  lemma ExtractTimestampOfRecording(prefix: string, digits: string, ext: string, utcOffset: int)
    requires '_' !in prefix && '_' !in ext
    requires |digits| > 0 && forall i :: 0 <= i < |digits| ==> IsDigit(digits[i])
    requires ext == [] || ext[0] == '.'
    ensures ExtractTimestamp(prefix + "_" + digits + ext, utcOffset) ==
              if InYearRange(DigitsValue(digits), utcOffset) then Clock(SecondOfDay(DigitsValue(digits), utcOffset))
              else prefix + "_" + digits + ext
  {
    assert '_' !in digits && '.' !in digits by {
      forall i | 0 <= i < |digits| ensures digits[i] != '_' && digits[i] != '.' { assert IsDigit(digits[i]); }
    }
    FieldOfRecording(prefix, digits, ext);
    ParseDigits(digits);
  }

  /** A name without '_' is its own title. */
  lemma ExtractTimestampWithoutField(filename: string, utcOffset: int)
    requires '_' !in filename
    ensures ExtractTimestamp(filename, utcOffset) == filename
  {
  }

  /** A timestamp in the year 11476 is out of datetime's range, so the name stays. */
  lemma ExtractTimestampPastYear9999()
    ensures ExtractTimestamp("clip_300000000000.mp4", 0) == "clip_300000000000.mp4"
  {
    assert "clip_300000000000.mp4" == "clip" + "_" + "300000000000" + ".mp4";
    assert DigitsValue("3") == 3;
    assert "30"[..1] == "3";
    assert DigitsValue("30") == 30;
    assert "300"[..2] == "30";
    assert DigitsValue("300") == 300;
    assert "3000"[..3] == "300";
    assert DigitsValue("3000") == 3000;
    assert "30000"[..4] == "3000";
    assert DigitsValue("30000") == 30000;
    assert "300000"[..5] == "30000";
    assert DigitsValue("300000") == 300000;
    assert "3000000"[..6] == "300000";
    assert DigitsValue("3000000") == 3000000;
    assert "30000000"[..7] == "3000000";
    assert DigitsValue("30000000") == 30000000;
    assert "300000000"[..8] == "30000000";
    assert DigitsValue("300000000") == 300000000;
    assert "3000000000"[..9] == "300000000";
    assert DigitsValue("3000000000") == 3000000000;
    assert "30000000000"[..10] == "3000000000";
    assert DigitsValue("30000000000") == 30000000000;
    assert "300000000000"[..11] == "30000000000";
    assert DigitsValue("300000000000") == 300000000000;
    ExtractTimestampOfRecording("clip", "300000000000", ".mp4", 0);
  }

  // ---------------------------------------------------------------------------
  // Extension tables

  datatype MediaClass = ClassVideo | ClassImage | ClassApp | ClassDirectory
  datatype MediaKind = KindVideo | KindImage | KindApp

  const VideoExtensions: seq<string> := [".mp4", ".avi", ".mkv"]
  const ImageExtensions: seq<string> := [".jpg", ".jpeg", ".png", ".gif"]

  /** get_media_class. */
  function MediaClassOf(extension: string): MediaClass {
    if extension in VideoExtensions then ClassVideo
    else if extension in ImageExtensions then ClassImage
    else ClassApp
  }

  /** get_media_type. */
  function MediaKindOf(extension: string): MediaKind {
    if extension in VideoExtensions then KindVideo
    else if extension in ImageExtensions then KindImage
    else KindApp
  }

  function KindOfClass(c: MediaClass): MediaKind {
    match c
    case ClassVideo => KindVideo
    case ClassImage => KindImage
    case _ => KindApp
  }

  /** The two tables agree on every extension, and classify the listed extensions only. */
  lemma ClassAndKindAgree(extension: string)
    ensures MediaKindOf(extension) == KindOfClass(MediaClassOf(extension))
    ensures MediaClassOf(extension) == ClassVideo <==> extension in {".mp4", ".avi", ".mkv"}
    ensures MediaClassOf(extension) == ClassImage <==> extension in {".jpg", ".jpeg", ".png", ".gif"}
    ensures MediaClassOf(extension) != ClassDirectory
  {
  }

  const DefaultMime := "application/octet-stream"

  const MimeTypes: Dict<string, string> :=
    [(".mp4", "video/mp4"), (".avi", "video/avi"), (".jpg", "image/jpeg"), (".jpeg", "image/jpeg")]

  /** get_mime_type. */
  function MimeTypeOf(extension: string): string {
    GetOr(MimeTypes, extension, DefaultMime)
  }

  /** Only .mp4, .avi, .jpg and .jpeg have a MIME type of their own; .mkv and .png, which
      the class table knows, fall back to application/octet-stream. */
  lemma MimeTypeCases(extension: string)
    ensures extension !in {".mp4", ".avi", ".jpg", ".jpeg"} <==> MimeTypeOf(extension) == DefaultMime
    ensures extension == ".mp4" ==> MimeTypeOf(extension) == "video/mp4"
    ensures extension == ".avi" ==> MimeTypeOf(extension) == "video/avi"
    ensures extension in {".jpg", ".jpeg"} ==> MimeTypeOf(extension) == "image/jpeg"
    ensures MimeTypeOf(".mkv") == DefaultMime && MediaClassOf(".mkv") == ClassVideo
    ensures MimeTypeOf(".png") == DefaultMime && MediaClassOf(".png") == ClassImage
  {
    if extension !in {".mp4", ".avi", ".jpg", ".jpeg"} {
      assert forall i :: 0 <= i < |MimeTypes| ==> MimeTypes[i].0 != extension;
    }
  }

  // ---------------------------------------------------------------------------
  // Directory titles and device names

  /** The class of a directory entry by its title, compared after lower-casing (ASCII
      letters only, as `Lower` maps them). */
  function DirectoryClass(title: string): MediaClass {
    if Lower(title) == "snapshot" then ClassImage
    else if Lower(title) == "video" then ClassVideo
    else ClassDirectory
  }

  /** Capitalizing a name first does not change its class. */
  lemma DirectoryClassIgnoresCase(name: string)
    ensures DirectoryClass(Capitalize(name)) == DirectoryClass(name)
    ensures DirectoryClass(name) == ClassImage <==> Lower(name) == "snapshot"
    ensures DirectoryClass(name) == ClassVideo <==> Lower(name) == "video"
  {
    LowerOfCapitalize(name);
  }

  /** Whether pat occurs in s at j. */
  predicate OccursAt(s: string, pat: string, j: int) {
    0 <= j && j + |pat| <= |s| && s[j..j + |pat|] == pat
  }

  /** Python's `a in b` on strings. */
  predicate IsSubstring(a: string, b: string) {
    exists j :: 0 <= j <= |b| && OccursAt(b, a, j)
  }

  /** get_device_name_from_data over the coordinator's devices (id and device name, in
      dictionary order): the capitalized name of the first device whose id, as text,
      contains the string; otherwise the string itself. */
  function DeviceNameFor(devices: Dict<int, string>, query: string): string
    decreases |devices|
  {
    if devices == [] then query
    else if IsSubstring(query, IntToString(devices[0].0)) then Capitalize(devices[0].1)
    else DeviceNameFor(devices[1..], query)
  }

  /** When no id contains the string, the string is its own name. */
  lemma {:induction false} DeviceNameUnmatched(devices: Dict<int, string>, query: string)
    requires forall i :: 0 <= i < |devices| ==> !IsSubstring(query, IntToString(devices[i].0))
    ensures DeviceNameFor(devices, query) == query
    decreases |devices|
  {
    if devices != [] {
      assert forall i :: 0 <= i < |devices[1..]| ==> devices[1..][i] == devices[i + 1];
      DeviceNameUnmatched(devices[1..], query);
    }
  }

  /** A device whose id does not contain the string is passed over. */
  lemma DeviceNameSkip(devices: Dict<int, string>, query: string)
    requires |devices| > 0 && !IsSubstring(query, IntToString(devices[0].0))
    ensures DeviceNameFor(devices, query) == DeviceNameFor(devices[1..], query)
  {
  }

  /** The first device whose id contains the string gives the name, capitalized. */
  lemma {:induction false} DeviceNameFirstMatch(devices: Dict<int, string>, query: string, i: int)
    requires 0 <= i < |devices| && IsSubstring(query, IntToString(devices[i].0))
    requires forall j :: 0 <= j < i ==> !IsSubstring(query, IntToString(devices[j].0))
    ensures DeviceNameFor(devices, query) == Capitalize(devices[i].1)
    decreases i
  {
    if i > 0 {
      DeviceNameSkip(devices, query);
      var rest := devices[1..];
      forall j | 0 <= j < i - 1 ensures !IsSubstring(query, IntToString(rest[j].0)) {
        assert rest[j] == devices[j + 1];
      }
      assert rest[i - 1] == devices[i];
      DeviceNameFirstMatch(rest, query, i - 1);
    }
  }

  /** The search loop of get_device_name_from_data. */
  method FindDeviceName(devices: Dict<int, string>, query: string) returns (r: string)
    ensures r == DeviceNameFor(devices, query)
  {
    var i := 0;
    while i < |devices|
      invariant 0 <= i <= |devices|
      invariant DeviceNameFor(devices, query) == DeviceNameFor(devices[i..], query)
    {
      assert devices[i..][1..] == devices[i + 1..];
      var (key, name) := devices[i];
      if IsSubstring(query, IntToString(key)) {
        return Capitalize(name);
      }
      i := i + 1;
    }
    r := query;
  }

  // ---------------------------------------------------------------------------
  // Thumbnails

  /** str.replace(pat, rep): every occurrence, scanning left to right without overlaps. */
  function ReplaceAll(s: string, pat: string, rep: string): string
    requires |pat| > 0
    decreases |s|
  {
    if |s| < |pat| then s
    else if s[..|pat|] == pat then rep + ReplaceAll(s[|pat|..], pat, rep)
    else [s[0]] + ReplaceAll(s[1..], pat, rep)
  }

  /** Dropping the first character cannot create an occurrence. */
  lemma NoOccurrenceInTail(s: string, pat: string)
    requires |s| > 0
    requires forall j :: !OccursAt(s, pat, j)
    ensures forall j :: !OccursAt(s[1..], pat, j)
  {
    forall j ensures !OccursAt(s[1..], pat, j) {
      if OccursAt(s[1..], pat, j) {
        assert s[1..][j..j + |pat|] == s[j + 1..j + 1 + |pat|];
        assert OccursAt(s, pat, j + 1);
      }
    }
  }

  /** Without an occurrence, replacing changes nothing. */
  lemma {:induction false} ReplaceAbsent(s: string, pat: string, rep: string)
    requires |pat| > 0
    requires forall j :: !OccursAt(s, pat, j)
    ensures ReplaceAll(s, pat, rep) == s
    decreases |s|
  {
    if |s| >= |pat| {
      assert !OccursAt(s, pat, 0);
      NoOccurrenceInTail(s, pat);
      ReplaceAbsent(s[1..], pat, rep);
    }
  }

  /** Under ReplaceAtEnd's conditions the window at 0 is not an occurrence. */
  lemma NoEarlyOccurrence(a: string, pat: string)
    requires |pat| > 0 && |a| > 0
    requires forall j :: !OccursAt(a, pat, j)
    requires forall p :: 0 < p < |pat| ==> pat[p] != pat[0]
    ensures (a + pat)[..|pat|] != pat
  {
    var s := a + pat;
    if |pat| <= |a| {
      assert !OccursAt(a, pat, 0);
      assert s[..|pat|] == a[0..|pat|];
    } else {
      assert s[..|pat|][|a|] == pat[0];
      assert pat[|a|] != pat[0];
    }
  }

  /** A string ending in one occurrence of `pat`, with no other occurrence and no repeat
      of pat's first character inside pat, has just that ending replaced. */
  lemma {:induction false} ReplaceAtEnd(a: string, pat: string, rep: string)
    requires |pat| > 0
    requires forall j :: !OccursAt(a, pat, j)
    requires forall p :: 0 < p < |pat| ==> pat[p] != pat[0]
    ensures ReplaceAll(a + pat, pat, rep) == a + rep
    decreases |a|
  {
    var s := a + pat;
    if |a| == 0 {
      assert s[..|pat|] == pat;
      assert s[|pat|..] == [];
    } else {
      assert s[1..] == a[1..] + pat;
      NoEarlyOccurrence(a, pat);
      NoOccurrenceInTail(a, pat);
      ReplaceAtEnd(a[1..], pat, rep);
      assert ReplaceAll(s, pat, rep) == [a[0]] + ReplaceAll(a[1..] + pat, pat, rep);
      assert [a[0]] + (a[1..] + rep) == a + rep;
    }
  }

  /** s.split(pat) for a non-empty pattern: the pieces between the occurrences found
      scanning left to right without overlaps. */
  function SplitOn(s: string, pat: string): (r: seq<string>)
    requires |pat| > 0
    ensures |r| >= 1 && r[0] <= s
    decreases |s|
  {
    if |s| < |pat| then [s]
    else if s[..|pat|] == pat then [""] + SplitOn(s[|pat|..], pat)
    else
      var rest := SplitOn(s[1..], pat);
      assert [s[0]] + rest[0] <= [s[0]] + s[1..];
      [[s[0]] + rest[0]] + rest[1..]
  }

  /** sep.join(parts). */
  function JoinWith(parts: seq<string>, sep: string): string
    requires |parts| >= 1
    decreases |parts|
  {
    if |parts| == 1 then parts[0] else parts[0] + sep + JoinWith(parts[1..], sep)
  }

  /** Putting a character in front of the first piece puts it in front of the join. */
  lemma JoinWithCons(c: char, parts: seq<string>, sep: string)
    requires |parts| >= 1
    ensures JoinWith([[c] + parts[0]] + parts[1..], sep) == [c] + JoinWith(parts, sep)
  {
    var q := [[c] + parts[0]] + parts[1..];
    if |parts| > 1 {
      assert q[1..] == parts[1..];
    }
  }

  /** s.replace(pat, rep) is rep.join(s.split(pat)): every occurrence the split finds is
      replaced, and nothing else. */
  lemma {:induction false} ReplaceIsJoinOfSplit(s: string, pat: string, rep: string)
    requires |pat| > 0
    ensures ReplaceAll(s, pat, rep) == JoinWith(SplitOn(s, pat), rep)
    decreases |s|
  {
    if |s| >= |pat| {
      if s[..|pat|] == pat {
        ReplaceIsJoinOfSplit(s[|pat|..], pat, rep);
        var parts := [""] + SplitOn(s[|pat|..], pat);
        assert parts[1..] == SplitOn(s[|pat|..], pat);
      } else {
        ReplaceIsJoinOfSplit(s[1..], pat, rep);
        JoinWithCons(s[0], SplitOn(s[1..], pat), rep);
      }
    }
  }

  /** Replacing a pattern by itself changes nothing, so joining the pieces with the
      pattern gives the string back. */
  lemma {:induction false} SplitOnJoins(s: string, pat: string)
    requires |pat| > 0
    ensures ReplaceAll(s, pat, pat) == s
    ensures JoinWith(SplitOn(s, pat), pat) == s
    decreases |s|
  {
    if |s| >= |pat| {
      if s[..|pat|] == pat {
        SplitOnJoins(s[|pat|..], pat);
        assert s == s[..|pat|] + s[|pat|..];
      } else {
        SplitOnJoins(s[1..], pat);
        assert s == [s[0]] + s[1..];
      }
    }
    ReplaceIsJoinOfSplit(s, pat, pat);
  }

  /** No piece of the split contains the pattern: every occurrence was cut out. */
  lemma {:induction false} SplitOnPieces(s: string, pat: string)
    requires |pat| > 0
    ensures forall k, j :: 0 <= k < |SplitOn(s, pat)| ==> !OccursAt(SplitOn(s, pat)[k], pat, j)
    decreases |s|
  {
    var r := SplitOn(s, pat);
    if |s| < |pat| {
      forall k, j | 0 <= k < |r| ensures !OccursAt(r[k], pat, j) {
      }
    } else if s[..|pat|] == pat {
      var rest := SplitOn(s[|pat|..], pat);
      SplitOnPieces(s[|pat|..], pat);
      forall k, j | 0 <= k < |r| ensures !OccursAt(r[k], pat, j) {
        if k > 0 {
          assert r[k] == rest[k - 1];
        }
      }
    } else {
      var rest := SplitOn(s[1..], pat);
      SplitOnPieces(s[1..], pat);
      var first := [s[0]] + rest[0];
      forall k, j | 0 <= k < |r| ensures !OccursAt(r[k], pat, j) {
        if k > 0 {
          assert r[k] == rest[k];
        } else if OccursAt(first, pat, j) {
          if j == 0 {
            assert false;
          } else {
            assert first[j..j + |pat|] == rest[0][j - 1..j - 1 + |pat|];
            assert OccursAt(rest[0], pat, j - 1);
            assert false;
          }
        }
      }
    }
  }

  /** The thumbnail URL of a file, from the directory relative to the media root and the
      file name. Home Assistant's URL processing is taken as the identity. */
  function ThumbnailUrl(parentRelative: string, name: string): string {
    "/media/media/" + ReplaceAll(parentRelative, "video", "snapshot") + "/" + ReplaceAll(name, ".mp4", ".jpg")
  }

  /** A recording in a device's video folder points at the snapshot of the same name in
      the device's snapshot folder. */
  lemma VideoThumbnail(device: string, stem: string)
    requires forall j :: !OccursAt(device + "/", "video", j)
    requires forall j :: !OccursAt(stem, ".mp4", j)
    ensures ThumbnailUrl(device + "/video", stem + ".mp4") == "/media/media/" + device + "/snapshot/" + stem + ".jpg"
  {
    ReplaceAtEnd(device + "/", "video", "snapshot");
    ReplaceAtEnd(stem, ".mp4", ".jpg");
    assert device + "/video" == (device + "/") + "video";
  }

  /** A name with neither 'video' nor '.mp4' in it is kept as is. */
  lemma ThumbnailOfOtherFiles(parentRelative: string, name: string)
    requires forall j :: !OccursAt(parentRelative, "video", j)
    requires forall j :: !OccursAt(name, ".mp4", j)
    ensures ThumbnailUrl(parentRelative, name) == "/media/media/" + parentRelative + "/" + name
  {
    ReplaceAbsent(parentRelative, "video", "snapshot");
    ReplaceAbsent(name, ".mp4", ".jpg");
  }

  // ---------------------------------------------------------------------------
  // Browse items

  /** Path.suffix: from the last '.', unless that dot starts the name or ends it. A
      suffix is a proper tail of the name, begins at a dot, and holds no other dot. */
  function Suffix(name: string): (r: string)
    ensures r == "" || (r[0] == '.' && |r| >= 2)
    ensures r != "" ==> |r| < |name| && r == name[|name| - |r|..] && '.' !in r[1..]
  {
    LastDotSuffix(name, |name|)
  }

  function LastDotSuffix(name: string, k: nat): (r: string)
    requires k <= |name|
    requires '.' !in name[k..]
    ensures r == "" || (r[0] == '.' && |r| >= 2)
    ensures r != "" ==> |r| < |name| && r == name[|name| - |r|..] && '.' !in r[1..]
    decreases k
  {
    if k == 0 then ""
    else if name[k - 1] == '.' then (if 0 < k - 1 && k < |name| then name[k - 1..] else "")
    else
      assert name[k - 1..] == [name[k - 1]] + name[k..];
      LastDotSuffix(name, k - 1)
  }

  /** Scanning back over a dot-free tail reaches the dot before it. */
  lemma {:induction false} LastDotSkipsTail(s: string, at: nat, k: nat)
    requires at < k <= |s| && '.' !in s[at + 1..]
    ensures '.' !in s[k..]
    ensures LastDotSuffix(s, k) == LastDotSuffix(s, at + 1)
    decreases k
  {
    assert s[k..] == s[at + 1..][k - at - 1..];
    if k > at + 1 {
      assert s[k - 1] == s[at + 1..][k - at - 2];
      LastDotSkipsTail(s, at, k - 1);
    }
  }

  /** A name ending in an extension whose only dot is its first character, after a
      non-empty stem, has that extension as its suffix. */
  lemma SuffixOfName(stem: string, ext: string)
    requires stem != "" && |ext| >= 2 && ext[0] == '.' && '.' !in ext[1..]
    ensures Suffix(stem + ext) == ext
  {
    var s := stem + ext;
    assert s[|stem| + 1..] == ext[1..];
    LastDotSkipsTail(s, |stem|, |s|);
    assert s[|stem|] == '.';
    assert s[|stem|..] == ext;
  }

  /** A name with no dot, or whose only dot is its first character, has no suffix. */
  lemma NoSuffix(name: string)
    requires '.' !in name || (name[0] == '.' && '.' !in name[1..])
    ensures Suffix(name) == ""
  {
  }

  datatype EntryKind = Folder | RegularFile | Neither

  /** One entry of the sorted directory listing: its name, its path relative to the media
      root, the relative path of its directory, and what it is on disk. */
  datatype Entry = Entry(name: string, relative: string, parentRelative: string, kind: EntryKind)

  datatype BrowseItem = BrowseItem(identifier: string, title: string, mediaClass: MediaClass,
                                   contentType: MediaKind, thumbnail: Option<string>,
                                   canExpand: bool, canPlay: bool)

  /** The browse item of a directory entry. */
  function FolderItem(e: Entry, devices: Dict<int, string>): BrowseItem {
    var title := Capitalize(DeviceNameFor(devices, ConvertDate(e.name)));
    BrowseItem(e.relative, title, DirectoryClass(title), KindVideo, None, true, false)
  }

  /** _build_file_media_item. */
  function FileItem(e: Entry, utcOffset: int): BrowseItem {
    var ext := Suffix(e.name);
    BrowseItem(e.relative, ExtractTimestamp(e.name, utcOffset), MediaClassOf(ext), MediaKindOf(ext),
               Some(ThumbnailUrl(e.parentRelative, e.name)), false, true)
  }

  /** A file named stem + extension is classified by that extension: a recording "x.mp4"
      is a video, a snapshot "x.jpg" an image. */
  lemma FileItemOfName(e: Entry, utcOffset: int, stem: string, ext: string)
    requires e.name == stem + ext
    requires stem != "" && |ext| >= 2 && ext[0] == '.' && '.' !in ext[1..]
    ensures FileItem(e, utcOffset).mediaClass == MediaClassOf(ext)
    ensures FileItem(e, utcOffset).contentType == MediaKindOf(ext)
    ensures ext == ".mp4" ==> FileItem(e, utcOffset).mediaClass == ClassVideo && FileItem(e, utcOffset).contentType == KindVideo
    ensures ext == ".jpg" ==> FileItem(e, utcOffset).mediaClass == ClassImage && FileItem(e, utcOffset).contentType == KindImage
  {
    SuffixOfName(stem, ext);
  }

  /** The children a listing yields: folders and files in listing order, other entries
      skipped. */
  function ChildItems(entries: seq<Entry>, devices: Dict<int, string>, utcOffset: int): seq<BrowseItem>
    decreases |entries|
  {
    if entries == [] then []
    else
      var e := entries[|entries| - 1];
      var init := ChildItems(entries[..|entries| - 1], devices, utcOffset);
      match e.kind
      case Folder => init + [FolderItem(e, devices)]
      case RegularFile => init + [FileItem(e, utcOffset)]
      case Neither => init
  }

  function CountListed(entries: seq<Entry>): nat
    decreases |entries|
  {
    if entries == [] then 0
    else CountListed(entries[..|entries| - 1]) + (if entries[|entries| - 1].kind == Neither then 0 else 1)
  }

  /** One item per folder or file, in listing order: the listing of a concatenation is the
      concatenation of the listings. */
  lemma {:induction false} ChildItemsConcat(a: seq<Entry>, b: seq<Entry>, devices: Dict<int, string>, utcOffset: int)
    ensures ChildItems(a + b, devices, utcOffset) == ChildItems(a, devices, utcOffset) + ChildItems(b, devices, utcOffset)
    ensures CountListed(a + b) == CountListed(a) + CountListed(b)
    decreases |b|
  {
    if b == [] {
      assert a + b == a;
    } else {
      var b' := b[..|b| - 1];
      assert (a + b)[..|a + b| - 1] == a + b';
      assert (a + b)[|a + b| - 1] == b[|b| - 1];
      ChildItemsConcat(a, b', devices, utcOffset);
    }
  }

  lemma {:induction false} ChildItemsCount(entries: seq<Entry>, devices: Dict<int, string>, utcOffset: int)
    ensures |ChildItems(entries, devices, utcOffset)| == CountListed(entries)
    ensures forall k :: 0 <= k < |ChildItems(entries, devices, utcOffset)| ==>
              ChildItems(entries, devices, utcOffset)[k].canExpand != ChildItems(entries, devices, utcOffset)[k].canPlay
    decreases |entries|
  {
    if entries != [] {
      ChildItemsCount(entries[..|entries| - 1], devices, utcOffset);
    }
  }

  /** _get_children_from_path over a listing already sorted. */
  method ChildrenFromListing(entries: seq<Entry>, devices: Dict<int, string>, utcOffset: int) returns (children: seq<BrowseItem>)
    ensures children == ChildItems(entries, devices, utcOffset)
  {
    children := [];
    var i := 0;
    while i < |entries|
      invariant 0 <= i <= |entries|
      invariant children == ChildItems(entries[..i], devices, utcOffset)
    {
      var e := entries[i];
      assert entries[..i + 1][..i] == entries[..i];
      assert entries[..i + 1][i] == e;
      if e.kind == Folder {
        var name := FindDeviceName(devices, ConvertDate(e.name));
        var title := Capitalize(name);
        children := children + [BrowseItem(e.relative, title, DirectoryClass(title), KindVideo, None, true, false)];
      } else if e.kind == RegularFile {
        children := children + [FileItem(e, utcOffset)];
      }
      i := i + 1;
    }
    assert entries[..|entries|] == entries;
  }
}
