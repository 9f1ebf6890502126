/** The records both sinks consume: a tag, a naive timestamp with microsecond
    precision, and the raw payload; plus Python's `isoformat` rendering of dates
    and timestamps and its ordering of timestamps. */
module LogRecords {
  import opened Options
  import opened Decimal

  /** Where a log line came from; `Value()` is the enumeration's value, the text
      both sinks write for it. */
  datatype LogType = Start | End | Report | Function | Platform {
    function Value(): string {
      match this
      case Start => "START"
      case End => "END"
      case Report => "REPORT"
      case Function => "FUNCTION"
      case Platform => "PLATFORM"
    }
  }

  predicate IsLeapYear(y: nat) {
    y % 4 == 0 && (y % 100 != 0 || y % 400 == 0)
  }

  function DaysInMonth(y: nat, m: nat): nat
    requires 1 <= m <= 12
  {
    if m == 2 then (if IsLeapYear(y) then 29 else 28)
    else if m == 4 || m == 6 || m == 9 || m == 11 then 30
    else 31
  }

  /** A calendar date (Python's `date`). */
  datatype Date = Date(year: nat, month: nat, day: nat) {
    predicate Valid() {
      1 <= year <= 9999 && 1 <= month <= 12 && 1 <= day <= DaysInMonth(year, month)
    }
  }

  /** A naive date and time (Python's `datetime` without tzinfo). */
  datatype DateTime = DateTime(year: nat, month: nat, day: nat,
                               hour: nat, minute: nat, second: nat, microsecond: nat) {
    predicate Valid() {
      DatePart().Valid() && hour < 24 && minute < 60 && second < 60 && microsecond < 1000000
    }

    function DatePart(): Date {
      Date(year, month, day)
    }
  }

  /** The values Python's `date` and `datetime` can hold. */
  type Day = d: Date | d.Valid() witness Date(1, 1, 1)
  type Timestamp = t: DateTime | t.Valid() witness DateTime(1, 1, 1, 0, 0, 0, 0)

  /** One collected log line: `log_type`, `log_time` and the payload `record`. */
  datatype LogRecord = LogRecord(logType: LogType, logTime: Timestamp, record: string)

  /** `str(date)`, i.e. `date.isoformat()`: YYYY-MM-DD, every field zero-filled. */
  function IsoDate(d: Day): string {
    ZeroPad(d.year, 4) + "-" + ZeroPad(d.month, 2) + "-" + ZeroPad(d.day, 2)
  }

  /** The shape of a formatted date: ten characters, dashes at 4 and 7, and
      the zero-filled digits of the year, the month and the day between them. */
  lemma IsoDateShape(d: Day)
    ensures var s := IsoDate(d);
      && |s| == 10 && s[4] == '-' && s[7] == '-'
      && AllDigits(s[..4]) && DecimalValue(s[..4]) == d.year
      && AllDigits(s[5..7]) && DecimalValue(s[5..7]) == d.month
      && AllDigits(s[8..]) && DecimalValue(s[8..]) == d.day
  {
    var y, m, dd := ZeroPad(d.year, 4), ZeroPad(d.month, 2), ZeroPad(d.day, 2);
    assert Pow10(4) == 10000;
    ZeroPadValue(d.year, 4);
    ZeroPadValue(d.month, 2);
    ZeroPadValue(d.day, 2);
    var s := y + "-" + m + "-" + dd;
    assert s[..4] == y && s[5..7] == m && s[8..] == dd;
  }

  /** Reads a YYYY-MM-DD date back. */
  function ParseIsoDate(s: string): Option<Date> {
    if |s| == 10 && s[4] == '-' && s[7] == '-'
       && AllDigits(s[..4]) && AllDigits(s[5..7]) && AllDigits(s[8..])
    then Some(Date(DecimalValue(s[..4]), DecimalValue(s[5..7]), DecimalValue(s[8..])))
    else None
  }

  /** Reading back a formatted date gives the date: distinct dates format differently. */
  lemma IsoDateRoundTrip(d: Day)
    ensures ParseIsoDate(IsoDate(d)) == Some(d)
  {
    IsoDateShape(d);
  }

  /** `datetime.isoformat()`: the date, "T", HH:MM:SS, then .ffffff only when
      the microsecond is not 0. */
  function IsoFormat(t: Timestamp): string {
    IsoDate(t.DatePart()) + "T" + ZeroPad(t.hour, 2) + ":" + ZeroPad(t.minute, 2) + ":"
    + ZeroPad(t.second, 2) + (if t.microsecond == 0 then "" else "." + ZeroPad(t.microsecond, 6))
  }

  /** The shape of a formatted timestamp: 19 characters, or 26 when there is a
      fraction; the date, then the zero-filled hour, minute, second and
      microsecond between their separators. */
  lemma IsoFormatShape(t: Timestamp)
    ensures var s := IsoFormat(t);
      && |s| == (if t.microsecond == 0 then 19 else 26)
      && s[..10] == IsoDate(t.DatePart()) && s[10] == 'T' && s[13] == ':' && s[16] == ':'
      && AllDigits(s[11..13]) && DecimalValue(s[11..13]) == t.hour
      && AllDigits(s[14..16]) && DecimalValue(s[14..16]) == t.minute
      && AllDigits(s[17..19]) && DecimalValue(s[17..19]) == t.second
      && (t.microsecond != 0 ==>
           s[19] == '.' && AllDigits(s[20..]) && DecimalValue(s[20..]) == t.microsecond)
  {
    var date := IsoDate(t.DatePart());
    IsoDateShape(t.DatePart());
    var h, mi, se := ZeroPad(t.hour, 2), ZeroPad(t.minute, 2), ZeroPad(t.second, 2);
    assert Pow10(6) == 1000000;
    ZeroPadValue(t.hour, 2);
    ZeroPadValue(t.minute, 2);
    ZeroPadValue(t.second, 2);
    ZeroPadValue(t.microsecond, 6);
    var frac := if t.microsecond == 0 then "" else "." + ZeroPad(t.microsecond, 6);
    TimeLayout(date, h, mi, se, frac);
    var s := IsoFormat(t);
    assert s == date + "T" + h + ":" + mi + ":" + se + frac;
    if t.microsecond != 0 {
      assert s[20..] == frac[1..];
    }
  }

  /** Where the parts of a date-and-time text sit, whatever their characters. */
  lemma TimeLayout(date: string, h: string, mi: string, se: string, frac: string)
    requires |date| == 10 && |h| == 2 && |mi| == 2 && |se| == 2
    ensures var s := date + "T" + h + ":" + mi + ":" + se + frac;
      && |s| == 19 + |frac|
      && s[..10] == date && s[10] == 'T' && s[11..13] == h && s[13] == ':'
      && s[14..16] == mi && s[16] == ':' && s[17..19] == se && s[19..] == frac
  {
    var s := date + "T" + h + ":" + mi + ":" + se + frac;
    assert s == date + ("T" + h + ":" + mi + ":" + se + frac);
  }

  /** The fields in the order Python compares datetimes. */
  function Fields(t: DateTime): seq<nat> {
    [t.year, t.month, t.day, t.hour, t.minute, t.second, t.microsecond]
  }

  /** Lexicographic "<" on tuples of equal length. */
  predicate LexLess(a: seq<nat>, b: seq<nat>)
    requires |a| == |b|
  {
    |a| > 0 && (a[0] < b[0] || (a[0] == b[0] && LexLess(a[1..], b[1..])))
  }

  /** Python's `a < b` on naive datetimes. */
  predicate Earlier(a: DateTime, b: DateTime) {
    LexLess(Fields(a), Fields(b))
  }

  lemma {:induction false} LexTrichotomy(a: seq<nat>, b: seq<nat>)
    requires |a| == |b|
    ensures LexLess(a, b) || a == b || LexLess(b, a)
    ensures !(LexLess(a, b) && LexLess(b, a)) && !LexLess(a, a)
  {
    if |a| > 0 {
      LexTrichotomy(a[1..], b[1..]);
      if a[0] == b[0] && a[1..] == b[1..] {
        assert a == [a[0]] + a[1..] && b == [b[0]] + b[1..];
      }
      LexTrichotomy(a[1..], a[1..]);
    }
  }

  lemma {:induction false} LexTransitive(a: seq<nat>, b: seq<nat>, c: seq<nat>)
    requires |a| == |b| == |c|
    ensures LexLess(a, b) && LexLess(b, c) ==> LexLess(a, c)
  {
    if LexLess(a, b) && LexLess(b, c) && a[0] == b[0] == c[0] {
      LexTransitive(a[1..], b[1..], c[1..]);
    }
  }

  /** Datetimes are totally ordered by `<`: for any two, exactly one of a < b,
      a == b and b < a holds. */
  lemma EarlierTotal(a: DateTime, b: DateTime)
    ensures Earlier(a, b) || a == b || Earlier(b, a)
    ensures !(Earlier(a, b) && Earlier(b, a)) && !Earlier(a, a)
  {
    LexTrichotomy(Fields(a), Fields(b));
    LexTrichotomy(Fields(a), Fields(a));
    if Fields(a) == Fields(b) {
      assert Fields(a)[0] == Fields(b)[0] && Fields(a)[6] == Fields(b)[6];
    }
  }

  lemma EarlierTransitive(a: DateTime, b: DateTime, c: DateTime)
    ensures Earlier(a, b) && Earlier(b, c) ==> Earlier(a, c)
  {
    LexTransitive(Fields(a), Fields(b), Fields(c));
  }

  /** The timestamps of the tests: the fraction is written only when there is one. */
  lemma IsoFormatExample()
    ensures IsoFormat(DateTime(2020, 5, 22, 10, 20, 30, 123456)) == "2020-05-22T10:20:30.123456"
  {
    MicrosecondExample();
    TwoDigitExamples();
    IsoDateExample();
  }

  lemma IsoFormatWholeSecondExample()
    ensures IsoFormat(DateTime(2020, 5, 22, 10, 20, 30, 0)) == "2020-05-22T10:20:30"
  {
    TwoDigitExamples();
    IsoDateExample();
  }

  /** `str(date(2022, 10, 14))`. */
  lemma IsoDateTestDayExample()
    ensures IsoDate(Date(2022, 10, 14)) == "2022-10-14"
  {
    assert NatToString(2) == "2";
    assert NatToString(20) == "20";
    assert NatToString(202) == "202";
    assert NatToString(2022) == "2022";
    assert NatToString(10) == "10";
    assert NatToString(14) == "14";
  }

  lemma IsoDateExample()
    ensures IsoDate(Date(2020, 5, 22)) == "2020-05-22"
  {
    YearExample();
    TwoDigitExamples();
  }

  lemma YearExample()
    ensures ZeroPad(2020, 4) == "2020"
  {
    assert NatToString(2) == "2";
    assert NatToString(20) == "20";
    assert NatToString(202) == "202";
    assert NatToString(2020) == "2020";
  }

  lemma MicrosecondExample()
    ensures ZeroPad(123456, 6) == "123456"
  {
    assert NatToString(1) == "1";
    assert NatToString(12) == "12";
    assert NatToString(123) == "123";
    assert NatToString(1234) == "1234";
    assert NatToString(12345) == "12345";
    assert NatToString(123456) == "123456";
  }

  lemma TwoDigitExamples()
    ensures ZeroPad(5, 2) == "05" && ZeroPad(22, 2) == "22" && ZeroPad(10, 2) == "10"
    ensures ZeroPad(20, 2) == "20" && ZeroPad(30, 2) == "30"
  {
    assert NatToString(5) == "5";
    assert NatToString(22) == "22";
    assert NatToString(10) == "10";
    assert NatToString(20) == "20";
    assert NatToString(30) == "30";
  }
}
