/** The archival sink: one object per batch in the configured bucket, under a
    key derived from the earliest record, holding one column-aligned text line
    per record. */
module S3Handler {
  import opened Options
  import opened Decimal
  import opened LogRecords
  import opened Strings
  import opened Sinks

  /** Minimum widths of the timestamp column and of the type column. */
  const TIME_PADDING: nat := 30
  const TYPE_PADDING: nat := 10

  /** `Configuration.s3_bucket_arn` is set to a non-empty name. */
  predicate BucketConfigured(bucket: Option<string>) {
    bucket.Some? && bucket.value != ""
  }

  // ---------------------------------------------------------------------------
  // Key derivation

  /** Python's `min` scanning `rest` from a current minimum `m`: an element
      replaces the current minimum only when it is strictly earlier. */
  function MinFrom(m: Timestamp, rest: seq<LogRecord>): (t: Timestamp)
    ensures t == m || exists i :: 0 <= i < |rest| && rest[i].logTime == t
    ensures !Earlier(m, t)
    ensures forall i :: 0 <= i < |rest| ==> !Earlier(rest[i].logTime, t)
    decreases |rest|
  {
    if rest == [] then EarlierTotal(m, m); m
    else
      var next := if Earlier(rest[0].logTime, m) then rest[0].logTime else m;
      var t := MinFrom(next, rest[1..]);
      assert forall i :: 1 <= i < |rest| ==> rest[i] == rest[1..][i - 1];
      MinStep(m, rest[0].logTime, t);
      t
  }

  /** One step of the scan keeps the invariant: whatever the scan ends with is
      not later than the current minimum nor than the element just taken. */
  lemma MinStep(m: DateTime, x: DateTime, t: DateTime)
    requires !Earlier(if Earlier(x, m) then x else m, t)
    ensures !Earlier(m, t) && !Earlier(x, t)
  {
    EarlierTotal(x, m);
    EarlierTotal(m, t);
    EarlierTotal(x, t);
    EarlierTransitive(x, m, t);
    EarlierTransitive(x, t, m);
  }

  /** `min(r.log_time for r in records)`: the log time of some record, and no
      record is earlier. */
  function MinTime(records: seq<LogRecord>): (t: Timestamp)
    requires |records| > 0
    ensures exists i :: 0 <= i < |records| && records[i].logTime == t
    ensures forall i :: 0 <= i < |records| ==> !Earlier(records[i].logTime, t)
  {
    assert forall i :: 1 <= i < |records| ==> records[i] == records[1..][i - 1];
    MinFrom(records[0].logTime, records[1..])
  }

  /** The two properties of MinTime's contract determine it: whatever order the
      scan takes, the minimum is the one log time that no record precedes. */
  lemma MinTimeUnique(records: seq<LogRecord>, t: DateTime)
    requires exists i :: 0 <= i < |records| && records[i].logTime == t
    requires forall i :: 0 <= i < |records| ==> !Earlier(records[i].logTime, t)
    ensures MinTime(records) == t
  {
    var m := MinTime(records);
    var i :| 0 <= i < |records| && records[i].logTime == t;
    var j :| 0 <= j < |records| && records[j].logTime == m;
    EarlierTotal(m, t);
  }

  /** Permuting the records leaves the earliest time, hence the key's time
      fields, unchanged. */
  lemma MinTimePermutation(records: seq<LogRecord>, shuffled: seq<LogRecord>)
    requires |records| > 0 && multiset(records) == multiset(shuffled)
    ensures |shuffled| > 0 && MinTime(shuffled) == MinTime(records)
  {
    assert |shuffled| == |multiset(shuffled)| == |multiset(records)| == |records|;
    var t := MinTime(records);
    var i :| 0 <= i < |records| && records[i].logTime == t;
    assert records[i] in multiset(shuffled);
    var k :| 0 <= k < |shuffled| && shuffled[k] == records[i];
    forall j | 0 <= j < |shuffled|
      ensures !Earlier(shuffled[j].logTime, t)
    {
      assert shuffled[j] in multiset(records);
      var l :| 0 <= l < |records| && records[l] == shuffled[j];
    }
    MinTimeUnique(shuffled, t);
  }

  /** Adding a record that is not earlier than the current minimum leaves it
      unchanged. */
  lemma MinTimeAddLater(records: seq<LogRecord>, r: LogRecord)
    requires |records| > 0 && !Earlier(r.logTime, MinTime(records))
    ensures MinTime(records + [r]) == MinTime(records)
  {
    var t := MinTime(records);
    var i :| 0 <= i < |records| && records[i].logTime == t;
    assert (records + [r])[i] == records[i];
    MinTimeUnique(records + [r], t);
  }

  /** The key under which a batch whose earliest record is at `t` is stored,
      with `suffix` standing for the text of `random.random()`. Every number is
      written as `str` writes it, without zero padding. */
  function KeyFor(t: DateTime, suffix: string): string {
    var directory := "logs/" + NatToString(t.year) + "/" + NatToString(t.month) + "/"
                     + NatToString(t.day) + "/";
    directory + NatToString(t.hour) + ":" + NatToString(t.minute) + ":"
    + NatToString(t.second) + ":" + NatToString(t.microsecond) + "-" + suffix
  }

  /** `generate_key_name(records)`: the key comes from the earliest log time. */
  function GenerateKeyName(records: seq<LogRecord>, suffix: string): string
    requires |records| > 0
  {
    KeyFor(MinTime(records), suffix)
  }

  /** The fields a key carries. */
  datatype KeyFields = KeyFields(time: DateTime, suffix: string)

  /** The number written before the first `sep` (in canonical decimal), and
      the text after that `sep`. */
  function NumberBefore(s: string, sep: char): (r: Option<(nat, string)>)
    ensures r.Some? ==> |r.value.1| < |s|
  {
    match SplitAt(s, sep)
    case None => None
    case Some((digits, rest)) =>
      if Canonical(digits) then Some((DecimalValue(digits), rest)) else None
  }

  /** Numbers each followed by its separator from `seps`, then the remaining text. */
  function ParseNumbers(s: string, seps: seq<char>): (r: Option<(seq<nat>, string)>)
    ensures r.Some? ==> |r.value.0| == |seps|
    decreases |seps|
  {
    if seps == [] then Some(([], s))
    else match NumberBefore(s, seps[0])
      case None => None
      case Some((n, rest)) =>
        match ParseNumbers(rest, seps[1..])
        case None => None
        case Some((ns, tail)) => Some(([n] + ns, tail))
  }

  /** Each number in decimal followed by its separator: the inverse of ParseNumbers. */
  function RenderNumbers(ns: seq<nat>, seps: seq<char>): string
    requires |ns| == |seps|
  {
    if ns == [] then "" else NatToString(ns[0]) + [seps[0]] + RenderNumbers(ns[1..], seps[1..])
  }

  const KEY_SEPARATORS: seq<char> := "///:::-"

  /** Reads a key back: the year, month, day, hour, minute, second and
      microsecond, and the random suffix. */
  function ParseKey(key: string): Option<KeyFields> {
    if |key| < 5 || key[..5] != "logs/" then None
    else match ParseNumbers(key[5..], KEY_SEPARATORS)
      case None => None
      case Some((ns, suffix)) =>
        Some(KeyFields(DateTime(ns[0], ns[1], ns[2], ns[3], ns[4], ns[5], ns[6]), suffix))
  }

  lemma {:induction false} ParseRenderNumbers(ns: seq<nat>, seps: seq<char>, tail: string)
    requires |ns| == |seps| && forall i :: 0 <= i < |seps| ==> !IsDigit(seps[i])
    ensures ParseNumbers(RenderNumbers(ns, seps) + tail, seps) == Some((ns, tail))
  {
    if ns != [] {
      var rest := RenderNumbers(ns[1..], seps[1..]) + tail;
      assert RenderNumbers(ns, seps) + tail == NatToString(ns[0]) + [seps[0]] + rest;
      NumberBeforeRendered(ns[0], seps[0], rest);
      assert forall i :: 0 <= i < |seps[1..]| ==> !IsDigit(seps[1..][i]) by {
        forall i | 0 <= i < |seps[1..]| ensures !IsDigit(seps[1..][i]) {
          assert seps[1..][i] == seps[i + 1];
        }
      }
      ParseRenderNumbers(ns[1..], seps[1..], tail);
      assert [ns[0]] + ns[1..] == ns;
    } else {
      assert seps == [] && RenderNumbers(ns, seps) + tail == tail;
    }
  }

  /** A number's numeral, a separator that is not a digit, and any rest: the
      number is read back and the rest is left over. */
  lemma NumberBeforeRendered(n: nat, sep: char, rest: string)
    requires !IsDigit(sep)
    ensures NumberBefore(NatToString(n) + [sep] + rest, sep) == Some((n, rest))
  {
    var d := NatToString(n);
    DecimalRoundTrip(n);
    assert sep !in d;
    SplitAtFirst(d, sep, rest);
  }

  lemma {:induction false} RenderParseNumbers(s: string, seps: seq<char>)
    requires ParseNumbers(s, seps).Some?
    ensures var (ns, tail) := ParseNumbers(s, seps).value;
      RenderNumbers(ns, seps) + tail == s
    decreases |seps|
  {
    if seps != [] {
      var (digits, rest) := SplitAt(s, seps[0]).value;
      CanonicalRoundTrip(digits);
      RenderParseNumbers(rest, seps[1..]);
      var (ns, tail) := ParseNumbers(s, seps).value;
      assert ns[1..] == ParseNumbers(rest, seps[1..]).value.0;
    }
  }

  lemma RenderStep(ns: seq<nat>, seps: seq<char>, k: nat)
    requires |ns| == |seps| && k < |ns|
    ensures RenderNumbers(ns[k..], seps[k..])
            == NatToString(ns[k]) + [seps[k]] + RenderNumbers(ns[k + 1..], seps[k + 1..])
  {
    assert ns[k..][1..] == ns[k + 1..] && seps[k..][1..] == seps[k + 1..];
  }

  /** KeyFor is "logs/" followed by the seven time fields, each with its separator. */
  lemma KeyForRendered(t: DateTime, suffix: string)
    ensures KeyFor(t, suffix) == "logs/" + RenderNumbers(Fields(t), KEY_SEPARATORS) + suffix
  {
    var f, k := Fields(t), KEY_SEPARATORS;
    var y, mo, d := NatToString(t.year), NatToString(t.month), NatToString(t.day);
    var h, mi, se, us := NatToString(t.hour), NatToString(t.minute), NatToString(t.second),
                         NatToString(t.microsecond);
    assert RenderNumbers(f, k)
           == y + "/" + (mo + "/" + (d + "/" + (h + ":" + (mi + ":" + (se + ":" + (us + "-" + "")))))) by {
      RenderStep(f, k, 0); RenderStep(f, k, 1); RenderStep(f, k, 2); RenderStep(f, k, 3);
      RenderStep(f, k, 4); RenderStep(f, k, 5); RenderStep(f, k, 6);
      assert f[7..] == [] && k[7..] == [] && f[0..] == f && k[0..] == k;
    }
    Regroup("logs/", y, "/", mo, "/", d, "/", h, ":", mi, ":", se, ":", us, "-", suffix);
  }

  lemma Regroup(a: string, b: string, c: string, d: string, e: string, f: string, g: string, h: string,
                i: string, j: string, k: string, l: string, m: string, n: string, o: string, p: string)
    ensures a + b + c + d + e + f + g + h + i + j + k + l + m + n + o + p
         == a + (b + c + (d + e + (f + g + (h + i + (j + k + (l + m + (n + o + "")))))))  + p
  {
  }

  /** The key is exactly logs/year/month/day/hour:minute:second:microsecond-suffix:
      reading it back gives the earliest record's time fields and the suffix,
      whatever the suffix holds. */
  lemma KeyRoundTrip(records: seq<LogRecord>, suffix: string)
    requires |records| > 0
    ensures ParseKey(GenerateKeyName(records, suffix)) == Some(KeyFields(MinTime(records), suffix))
  {
    var t := MinTime(records);
    KeyForRendered(t, suffix);
    var key := GenerateKeyName(records, suffix);
    assert key[5..] == RenderNumbers(Fields(t), KEY_SEPARATORS) + suffix;
    ParseRenderNumbers(Fields(t), KEY_SEPARATORS, suffix);
  }

  /** Conversely, every key ParseKey accepts is the key of the fields it reads:
      the numbers in a key are canonical, so no two field sets share a key. */
  lemma KeyFromFields(key: string)
    requires ParseKey(key).Some?
    ensures KeyFor(ParseKey(key).value.time, ParseKey(key).value.suffix) == key
  {
    ParsedKeyFields(key);
    var f := ParseKey(key).value;
    RenderParseNumbers(key[5..], KEY_SEPARATORS);
    KeyForRendered(f.time, f.suffix);
  }

  lemma ParsedKeyFields(key: string)
    requires ParseKey(key).Some?
    ensures key == "logs/" + key[5..] && ParseNumbers(key[5..], KEY_SEPARATORS).Some?
    ensures ParseNumbers(key[5..], KEY_SEPARATORS).value
            == (Fields(ParseKey(key).value.time), ParseKey(key).value.suffix)
  {
    var p := ParseNumbers(key[5..], KEY_SEPARATORS).value;
    FieldsOfTuple(p.0);
  }

  lemma FieldsOfTuple(ns: seq<nat>)
    requires |ns| == 7
    ensures Fields(DateTime(ns[0], ns[1], ns[2], ns[3], ns[4], ns[5], ns[6])) == ns
  {
  }

  /** Two keys for the same records differ only in the random suffix, and
      permuting the records changes nothing else either. */
  lemma KeyOnlySuffixVaries(records: seq<LogRecord>, shuffled: seq<LogRecord>, s1: string, s2: string)
    requires |records| > 0 && multiset(records) == multiset(shuffled)
    ensures |shuffled| > 0
    ensures GenerateKeyName(shuffled, s2) == GenerateKeyName(records, s1)[..|GenerateKeyName(records, s1)| - |s1|] + s2
    ensures GenerateKeyName(records, s1) == GenerateKeyName(shuffled, s2) <==> s1 == s2
  {
    MinTimePermutation(records, shuffled);
    var t := MinTime(records);
    KeyForRendered(t, s1);
    KeyForRendered(t, s2);
    var stem := "logs/" + RenderNumbers(Fields(t), KEY_SEPARATORS);
    assert GenerateKeyName(records, s1) == stem + s1;
    assert GenerateKeyName(shuffled, s2) == stem + s2;
    assert (stem + s1)[..|stem + s1| - |s1|] == stem;
    if stem + s1 == stem + s2 {
      assert s1 == (stem + s1)[|stem|..];
    }
  }

  // ---------------------------------------------------------------------------
  // Body formatting

  /** `_format_record(r)`: the isoformat timestamp left-justified to
      TIME_PADDING columns, the type value left-justified to TYPE_PADDING
      columns, then the payload as it is. */
  function FormatRecord(r: LogRecord): string {
    LeftJustify(IsoFormat(r.logTime), TIME_PADDING)
    + LeftJustify(r.logType.Value(), TYPE_PADDING)
    + r.record
  }

  /** The line's layout: the timestamp padded with spaces, never cut, then the
      type padded likewise, then the payload verbatim. Timestamps take at most
      26 columns and type values at most 8, so the columns start at 0, 30 and 40
      for every record. */
  lemma FormatRecordLayout(r: LogRecord)
    ensures var line, iso, ty := FormatRecord(r), IsoFormat(r.logTime), r.logType.Value();
      && |line| == TIME_PADDING + TYPE_PADDING + |r.record|
      && line[..|iso|] == iso
      && (forall i :: |iso| <= i < TIME_PADDING ==> line[i] == ' ')
      && line[TIME_PADDING..TIME_PADDING + |ty|] == ty
      && (forall i :: TIME_PADDING + |ty| <= i < TIME_PADDING + TYPE_PADDING ==> line[i] == ' ')
      && line[TIME_PADDING + TYPE_PADDING..] == r.record
  {
    IsoFormatShape(r.logTime);
    ColumnsLayout(IsoFormat(r.logTime), r.logType.Value(), r.record);
  }

  /** Where the parts of a line sit, for any fields that fit their columns. */
  lemma ColumnsLayout(time: string, logType: string, record: string)
    requires |time| <= TIME_PADDING && |logType| <= TYPE_PADDING
    ensures var line := LeftJustify(time, TIME_PADDING) + LeftJustify(logType, TYPE_PADDING) + record;
      && |line| == TIME_PADDING + TYPE_PADDING + |record|
      && line[..|time|] == time
      && (forall i :: |time| <= i < TIME_PADDING ==> line[i] == ' ')
      && line[TIME_PADDING..TIME_PADDING + |logType|] == logType
      && (forall i :: TIME_PADDING + |logType| <= i < TIME_PADDING + TYPE_PADDING ==> line[i] == ' ')
      && line[TIME_PADDING + TYPE_PADDING..] == record
  {
    var a, b := LeftJustify(time, TIME_PADDING), LeftJustify(logType, TYPE_PADDING);
    var line := a + b + record;
    assert line[..|time|] == a[..|time|];
    assert line[TIME_PADDING..TIME_PADDING + |logType|] == b[..|logType|];
    assert forall i :: TIME_PADDING + |logType| <= i < TIME_PADDING + TYPE_PADDING ==> line[i] == b[i - TIME_PADDING];
  }

  /** The three fields of a formatted line, read back by column. */
  datatype LineFields = LineFields(time: string, logType: string, record: string)

  function ParseLine(line: string): Option<LineFields> {
    if |line| < TIME_PADDING + TYPE_PADDING then None
    else Some(LineFields(TrimRight(line[..TIME_PADDING]),
                         TrimRight(line[TIME_PADDING..TIME_PADDING + TYPE_PADDING]),
                         line[TIME_PADDING + TYPE_PADDING..]))
  }

  /** Reading a formatted line back by column recovers the timestamp text, the
      type value and the payload: the padding loses nothing. */
  lemma FormatRecordRoundTrip(r: LogRecord)
    ensures ParseLine(FormatRecord(r)) ==
      Some(LineFields(IsoFormat(r.logTime), r.logType.Value(), r.record))
  {
    var iso := IsoFormat(r.logTime);
    IsoFormatShape(r.logTime);
    assert iso[|iso| - 1] != ' ' by {
      if r.logTime.microsecond == 0 {
        assert iso[18] == iso[17..19][1];
      } else {
        assert iso[25] == iso[20..][5];
      }
    }
    ColumnsRoundTrip(iso, r.logType.Value(), r.record);
  }

  /** Two fields that fit their columns and do not end in a space, then any
      text: reading the line by column gives all three back. */
  lemma ColumnsRoundTrip(time: string, logType: string, record: string)
    requires 0 < |time| <= TIME_PADDING && time[|time| - 1] != ' '
    requires 0 < |logType| <= TYPE_PADDING && logType[|logType| - 1] != ' '
    ensures ParseLine(LeftJustify(time, TIME_PADDING) + LeftJustify(logType, TYPE_PADDING) + record)
            == Some(LineFields(time, logType, record))
  {
    var a, b := LeftJustify(time, TIME_PADDING), LeftJustify(logType, TYPE_PADDING);
    var line := a + b + record;
    assert line[..TIME_PADDING] == a;
    assert line[TIME_PADDING..TIME_PADDING + TYPE_PADDING] == b;
    assert line[TIME_PADDING + TYPE_PADDING..] == record;
    TrimLeftJustified(time, TIME_PADDING);
    TrimLeftJustified(logType, TYPE_PADDING);
  }


  /** The lines of a batch: `map(_format_record, records)`. */
  function Lines(records: seq<LogRecord>): (lines: seq<string>)
    ensures |lines| == |records|
    ensures forall i :: 0 <= i < |records| ==> lines[i] == FormatRecord(records[i])
  {
    seq(|records|, i requires 0 <= i < |records| => FormatRecord(records[i]))
  }

  /** `format_records(records)`, before `.encode()`: the lines joined by "\n". */
  function FormatRecords(records: seq<LogRecord>): string {
    Join(Lines(records), '\n')
  }

  /** The body is the lines in input order with one "\n" between neighbours and
      none after the last: it ends with the last record's line. */
  lemma FormatRecordsLast(records: seq<LogRecord>)
    requires |records| > 0
    ensures var n := |records|;
      FormatRecords(records) ==
        (if n == 1 then "" else FormatRecords(records[..n - 1]) + "\n") + FormatRecord(records[n - 1])
  {
    var n := |records|;
    var lines, init, last := Lines(records), Lines(records[..n - 1]), FormatRecord(records[n - 1]);
    if n > 1 {
      forall i | 0 <= i < n
        ensures lines[i] == (init + [last])[i]
      {
        if i < n - 1 {
          assert records[..n - 1][i] == records[i];
        }
      }
      assert lines == init + [last];
      JoinSnoc(init, '\n', last);
    } else {
      assert lines == [last];
    }
  }

  /** When no payload contains a newline, splitting the body at "\n" gives back
      exactly one line per record, in input order. */
  lemma FormatRecordsSplit(records: seq<LogRecord>)
    requires |records| > 0
    requires forall i :: 0 <= i < |records| ==> '\n' !in records[i].record
    ensures Split(FormatRecords(records), '\n') == Lines(records)
  {
    var lines := Lines(records);
    forall i | 0 <= i < |lines|
      ensures '\n' !in lines[i]
    {
      LineNoNewline(records[i]);
    }
    SplitJoin(lines, '\n');
  }

  /** Only the payload can put a newline into a line. */
  lemma LineNoNewline(r: LogRecord)
    requires '\n' !in r.record
    ensures '\n' !in FormatRecord(r)
  {
    IsoFormatNoNewline(r.logTime);
    PaddingHasNoNewline(IsoFormat(r.logTime), TIME_PADDING);
    PaddingHasNoNewline(r.logType.Value(), TYPE_PADDING);
  }

  lemma PaddingHasNoNewline(s: string, width: nat)
    requires '\n' !in s
    ensures '\n' !in LeftJustify(s, width)
  {
    assert LeftJustify(s, width) == s + Repeat(' ', if |s| < width then width - |s| else 0);
  }


  lemma IsoFormatNoNewline(t: Timestamp)
    ensures '\n' !in IsoFormat(t)
  {
    ZeroPadHasNoNewline(t.year, 4);
    ZeroPadHasNoNewline(t.month, 2);
    ZeroPadHasNoNewline(t.day, 2);
    ZeroPadHasNoNewline(t.hour, 2);
    ZeroPadHasNoNewline(t.minute, 2);
    ZeroPadHasNoNewline(t.second, 2);
    ZeroPadHasNoNewline(t.microsecond, 6);
  }

  // ---------------------------------------------------------------------------
  // The sink

  /** `S3Handler().handle_logs(records)`. With no bucket or no records it does
      nothing and returns False. Otherwise it makes exactly one put, to the
      configured bucket, at the key of the records with the body of the records;
      it returns True when the store accepts it, and the store's failure escapes
      as an exception. */
  function HandleLogs(bucket: Option<string>, records: seq<LogRecord>, suffix: string,
                      storage: Storage): (run: Run)
    ensures run.outcome == Returned(false) <==> run.effects == []
    ensures run.outcome == Returned(false) <==> !BucketConfigured(bucket) || records == []
    ensures run.outcome != Returned(false) ==>
      run.effects == [Put(bucket.value, GenerateKeyName(records, suffix), FormatRecords(records))]
      && (run.outcome == Returned(true) <==> storage == Stored)
      && (run.outcome == Raised <==> storage == StorageFailed)
  {
    if BucketConfigured(bucket) && records != [] then
      var key := GenerateKeyName(records, suffix);
      var fileData := FormatRecords(records);
      Run([Put(bucket.value, key, fileData)], if storage == Stored then Returned(true) else Raised)
    else
      Run([], Returned(false))
  }

  /** What the one put holds: a key that reads back as the earliest record's
      time and the suffix, and, when no payload contains a line break, a body
      that splits at line breaks into exactly the records' lines. A payload
      that holds a line break spreads over several lines of the body, so the
      body no longer splits back into one line per record. */
  lemma HandleLogsPut(bucket: Option<string>, records: seq<LogRecord>, suffix: string,
                      storage: Storage)
    requires BucketConfigured(bucket) && records != []
    ensures var run := HandleLogs(bucket, records, suffix, storage);
      && |run.effects| == 1 && run.effects[0].Put?
      && run.effects[0].bucket == bucket.value
      && ParseKey(run.effects[0].key) == Some(KeyFields(MinTime(records), suffix))
      && ((forall i :: 0 <= i < |records| ==> '\n' !in records[i].record) ==>
            Split(run.effects[0].body, '\n') == Lines(records))
  {
    KeyRoundTrip(records, suffix);
    if forall i :: 0 <= i < |records| ==> '\n' !in records[i].record {
      FormatRecordsSplit(records);
    }
  }

  /** The archived body of the one record in the fallback test. */
  lemma FormatRecordExample()
    ensures FormatRecords([LogRecord(Start, DateTime(2020, 5, 22, 10, 20, 30, 123456), "a")])
            == "2020-05-22T10:20:30.123456    START     a"
  {
    var r := LogRecord(Start, DateTime(2020, 5, 22, 10, 20, 30, 123456), "a");
    FormatLineExample();
    assert Lines([r]) == [FormatRecord(r)];
  }

  lemma FormatLineExample()
    ensures FormatRecord(LogRecord(Start, DateTime(2020, 5, 22, 10, 20, 30, 123456), "a"))
            == "2020-05-22T10:20:30.123456    START     a"
  {
    IsoFormatExample();
    PaddingExample();
  }

  lemma PaddingExample()
    ensures LeftJustify("2020-05-22T10:20:30.123456", TIME_PADDING) == "2020-05-22T10:20:30.123456    "
    ensures LeftJustify("START", TYPE_PADDING) == "START     "
  {
    assert Repeat(' ', 4) == "    ";
    assert Repeat(' ', 5) == "     ";
  }
}
