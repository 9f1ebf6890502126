/** The search sink: the records become one JSON array of alternating index
    directives and documents, POSTed to the configured endpoint with basic
    credentials; when that fails in any way, the same records go to the
    archival sink instead. */
module ElasticSearchHandler {
  import opened Options
  import opened LogRecords
  import opened Sinks
  import S3 = S3Handler

  /** The environment the handler reads, as one record. */
  datatype Config = Config(
    url: Option<string>,            // LOGS_ELASTICSEARCH_URL
    user: Option<string>,           // LOGS_ELASTICSEARCH_USER
    password: Option<string>,       // LOGS_ELASTICSEARCH_PASSWORD
    functionName: Option<string>,   // AWS_LAMBDA_FUNCTION_NAME
    logStreamName: Option<string>,  // AWS_LAMBDA_LOG_STREAM_NAME
    s3Bucket: Option<string>)       // the archival sink's bucket

  /** How the endpoint answers the POST: the request itself fails, or a status
      code comes back with the response text. */
  datatype HttpResponse = TransportError | Status(code: int, text: string)

  /** Why `send_logs` raised: a missing setting, a failed request, or a status
      code of 400 or more (`HTTPCodeException`). */
  datatype SendError = MissingUrl | MissingCredentials | RequestFailed | HttpCode(code: int)

  datatype SendResult = Accepted(text: string) | Failed(error: SendError)

  /** The POST `send_logs` made, if any, and what it returned or raised. */
  datatype Delivery = Delivery(effects: seq<Effect>, result: SendResult)

  /** An environment value Python treats as true: set and not empty. */
  predicate Truthy(v: Option<string>) {
    v.Some? && v.value != ""
  }

  // ---------------------------------------------------------------------------
  // Index name and log stream

  const UNKNOWN_LOG_STREAM: string := "unknown_log_stream"

  /** The log stream name the documents carry: the environment's when it is
      set and not empty, the placeholder otherwise. */
  function LogStreamName(env: Option<string>): (name: string)
    ensures name != ""
    ensures Truthy(env) ==> name == env.value
    ensures !Truthy(env) ==> name == UNKNOWN_LOG_STREAM
  {
    if Truthy(env) then env.value else UNKNOWN_LOG_STREAM
  }

  /** The function name as an f-string prints it: an unset variable is `None`. */
  function FunctionNameText(name: Option<string>): string {
    if name.Some? then name.value else "None"
  }

  /** `generate_key_name()`: "lambda-", the function name, "-", today's date. */
  function GenerateKeyName(functionName: Option<string>, today: Day): (index: string)
    ensures |index| == |FunctionNameText(functionName)| + 18
    ensures index[..7] == "lambda-"
    ensures index[7..|index| - 11] == FunctionNameText(functionName)
    ensures index[|index| - 11] == '-'
    ensures ParseIsoDate(index[|index| - 10..]) == Some(today)
  {
    var name := FunctionNameText(functionName);
    var index := "lambda-" + name + "-" + IsoDate(today);
    IsoDateShape(today);
    IndexLayout(name, IsoDate(today));
    IsoDateRoundTrip(today);
    index
  }

  /** Where the parts of an index name sit, whatever the name and the date text. */
  lemma IndexLayout(name: string, date: string)
    requires |date| == 10
    ensures var index := "lambda-" + name + "-" + date;
      && |index| == |name| + 18
      && index[..7] == "lambda-" && index[7..|index| - 11] == name
      && index[|index| - 11] == '-' && index[|index| - 10..] == date
  {
    var index := "lambda-" + name + "-" + date;
    assert index == "lambda-" + (name + "-" + date);
  }

  /** One index per function per day: two days share an index name only when
      they are the same day, and two functions only when they print alike. */
  lemma IndexNamePerDay(f1: Option<string>, f2: Option<string>, d1: Day, d2: Day)
    ensures GenerateKeyName(f1, d1) == GenerateKeyName(f2, d2)
            <==> d1 == d2 && FunctionNameText(f1) == FunctionNameText(f2)
  {
    var i1, i2 := GenerateKeyName(f1, d1), GenerateKeyName(f2, d2);
    if i1 == i2 {
      assert i1[|i1| - 10..] == i2[|i2| - 10..];
      assert |FunctionNameText(f1)| == |FunctionNameText(f2)|;
      assert i1[7..|i1| - 11] == i2[7..|i2| - 11];
    }
  }

  // ---------------------------------------------------------------------------
  // Bulk payload

  /** `{"index": {"_index": index_name}}` */
  function IndexDirective(indexName: string): Json {
    JObject([("index", JObject([("_index", JString(indexName))]))])
  }

  /** The document for one record. */
  function Document(r: LogRecord, logStreamName: string): Json {
    JObject([("@timestamp", JString(IsoFormat(r.logTime))),
             ("log_type", JString(r.logType.Value())),
             ("log_stream_name", JString(logStreamName)),
             ("log", JString(r.record))])
  }

  /** The member names of an object, in order. */
  function Keys(j: Json): seq<string> {
    match j
    case JString(_) => []
    case JObject(members) => seq(|members|, i requires 0 <= i < |members| => members[i].0)
  }

  /** The value of the first member named `key`, as a dict lookup finds it. */
  function Lookup(j: Json, key: string): Option<Json> {
    match j
    case JString(_) => None
    case JObject(members) => LookupMembers(members, key)
  }

  function LookupMembers(members: seq<(string, Json)>, key: string): Option<Json> {
    if members == [] then None
    else if members[0].0 == key then Some(members[0].1)
    else LookupMembers(members[1..], key)
  }

  /** A document has exactly the keys @timestamp, log_type, log_stream_name and
      log: the isoformat time (19 characters, or 26 when it has a fraction),
      the type value, the stream name and the payload verbatim. */
  lemma DocumentFields(r: LogRecord, logStreamName: string)
    ensures var doc := Document(r, logStreamName);
      && Keys(doc) == ["@timestamp", "log_type", "log_stream_name", "log"]
      && Lookup(doc, "@timestamp") == Some(JString(IsoFormat(r.logTime)))
      && |IsoFormat(r.logTime)| == (if r.logTime.microsecond == 0 then 19 else 26)
      && Lookup(doc, "log_type") == Some(JString(r.logType.Value()))
      && Lookup(doc, "log_stream_name") == Some(JString(logStreamName))
      && Lookup(doc, "log") == Some(JString(r.record))
  {
    IsoFormatShape(r.logTime);
    DocumentLookups(JString(IsoFormat(r.logTime)), JString(r.logType.Value()),
                    JString(logStreamName), JString(r.record));
  }

  /** The keys and lookups of an object with the four document members,
      whatever their values. */
  lemma DocumentLookups(timestamp: Json, logType: Json, logStream: Json, log: Json)
    ensures var doc := JObject([("@timestamp", timestamp), ("log_type", logType),
                                ("log_stream_name", logStream), ("log", log)]);
      && Keys(doc) == ["@timestamp", "log_type", "log_stream_name", "log"]
      && Lookup(doc, "@timestamp") == Some(timestamp)
      && Lookup(doc, "log_type") == Some(logType)
      && Lookup(doc, "log_stream_name") == Some(logStream)
      && Lookup(doc, "log") == Some(log)
  {
    var members := [("@timestamp", timestamp), ("log_type", logType),
                    ("log_stream_name", logStream), ("log", log)];
    assert members[1..][1..] == members[2..] && members[2..][1..] == members[3..];
    assert LookupMembers(members, "log_type") == LookupMembers(members[1..], "log_type");
    assert LookupMembers(members, "log_stream_name") == LookupMembers(members[2..], "log_stream_name");
    assert LookupMembers(members, "log") == LookupMembers(members[2..], "log");
    assert LookupMembers(members[2..], "log") == LookupMembers(members[3..], "log");
  }

  /** The payload `format_records` builds for a batch, defined record by record. */
  function BulkPayload(records: seq<LogRecord>, indexName: string, logStreamName: string): seq<Json> {
    if records == [] then []
    else [IndexDirective(indexName), Document(records[0], logStreamName)]
         + BulkPayload(records[1..], indexName, logStreamName)
  }

  lemma {:induction false} BulkPayloadLength(records: seq<LogRecord>, indexName: string, logStreamName: string)
    ensures |BulkPayload(records, indexName, logStreamName)| == 2 * |records|
  {
    if records != [] {
      BulkPayloadLength(records[1..], indexName, logStreamName);
    }
  }

  lemma {:induction false} BulkPayloadElement(records: seq<LogRecord>, indexName: string, logStreamName: string, i: nat)
    requires i < |records|
    ensures |BulkPayload(records, indexName, logStreamName)| == 2 * |records|
    ensures BulkPayload(records, indexName, logStreamName)[2 * i] == IndexDirective(indexName)
    ensures BulkPayload(records, indexName, logStreamName)[2 * i + 1] == Document(records[i], logStreamName)
  {
    BulkPayloadLength(records, indexName, logStreamName);
    if i > 0 {
      var rest := records[1..];
      BulkPayloadElement(rest, indexName, logStreamName, i - 1);
      PairCons(IndexDirective(indexName), Document(records[0], logStreamName),
               BulkPayload(rest, indexName, logStreamName), i - 1);
      assert rest[i - 1] == records[i];
    }
  }

  /** Prepending one pair shifts every pair position by one. */
  lemma PairCons<T>(a: T, b: T, tail: seq<T>, k: nat)
    requires 2 * k + 1 < |tail|
    ensures ([a, b] + tail)[2 * (k + 1)] == tail[2 * k]
    ensures ([a, b] + tail)[2 * (k + 1) + 1] == tail[2 * k + 1]
  {
  }

  /** BulkPayload holds 2·n values: at 2i the index directive, at 2i+1 the
      document of record i. */
  lemma BulkPayloadAt(records: seq<LogRecord>, indexName: string, logStreamName: string)
    ensures var data := BulkPayload(records, indexName, logStreamName);
      && |data| == 2 * |records|
      && forall i :: 0 <= i < |records| ==>
           data[2 * i] == IndexDirective(indexName) && data[2 * i + 1] == Document(records[i], logStreamName)
  {
    BulkPayloadLength(records, indexName, logStreamName);
    forall i | 0 <= i < |records|
      ensures BulkPayload(records, indexName, logStreamName)[2 * i] == IndexDirective(indexName)
      ensures BulkPayload(records, indexName, logStreamName)[2 * i + 1] == Document(records[i], logStreamName)
    {
      BulkPayloadElement(records, indexName, logStreamName, i);
    }
  }

  /** Those positions determine the payload: any sequence of 2·n values laid
      out that way is BulkPayload. */
  lemma BulkPayloadUnique(records: seq<LogRecord>, indexName: string, logStreamName: string, data: seq<Json>)
    requires |data| == 2 * |records|
    requires forall i :: 0 <= i < |records| ==>
      data[2 * i] == IndexDirective(indexName) && data[2 * i + 1] == Document(records[i], logStreamName)
    ensures data == BulkPayload(records, indexName, logStreamName)
  {
    var b := BulkPayload(records, indexName, logStreamName);
    BulkPayloadAt(records, indexName, logStreamName);
    forall k | 0 <= k < |data|
      ensures data[k] == b[k]
    {
      var i := k / 2;
      assert k == 2 * i || k == 2 * i + 1;
      assert records[i] == records[i];
    }
  }

  /** `format_records(records, index_name, log_stream_name)` before
      `json.dumps`: for each record in order, its index directive then its
      document. */
  method FormatRecords(records: seq<LogRecord>, indexName: string, logStreamName: string)
    returns (data: seq<Json>)
    ensures |data| == 2 * |records|
    ensures forall i :: 0 <= i < |records| ==>
      data[2 * i] == IndexDirective(indexName) && data[2 * i + 1] == Document(records[i], logStreamName)
    ensures data == BulkPayload(records, indexName, logStreamName)
  {
    data := [];
    for n := 0 to |records|
      invariant |data| == 2 * n
      invariant forall i :: 0 <= i < n ==>
        data[2 * i] == IndexDirective(indexName) && data[2 * i + 1] == Document(records[i], logStreamName)
    {
      var indexObject := IndexDirective(indexName);
      data := data + [indexObject];
      var logObject := Document(records[n], logStreamName);
      data := data + [logObject];
    }
    BulkPayloadUnique(records, indexName, logStreamName, data);
  }

  // ---------------------------------------------------------------------------
  // Delivery

  /** The settings a POST needs are all present: URL, user and password. */
  predicate ReadyToPost(cfg: Config) {
    Truthy(cfg.url) && Truthy(cfg.user) && Truthy(cfg.password)
  }

  /** The check of the endpoint's answer: a status below 400 returns the
      response text, a status of 400 or more raises with that code, and a
      failed request raises too. */
  function CheckResponse(response: HttpResponse): (r: SendResult)
    ensures r.Accepted? <==> response.Status? && response.code < 400
    ensures r.Accepted? ==> r.text == response.text
    ensures response.Status? && response.code >= 400 ==> r == Failed(HttpCode(response.code))
    ensures response.TransportError? ==> r == Failed(RequestFailed)
  {
    match response
    case TransportError => Failed(RequestFailed)
    case Status(code, text) => if code >= 400 then Failed(HttpCode(code)) else Accepted(text)
  }

  /** `send_logs(data)`. A missing or empty URL fails first; then a missing or
      empty user or password; neither makes a request. Otherwise exactly one
      POST goes to the URL with the user, the password and the payload, and
      the answer is checked. */
  function SendLogs(cfg: Config, data: seq<Json>, response: HttpResponse): (d: Delivery)
    ensures !Truthy(cfg.url) ==> d == Delivery([], Failed(MissingUrl))
    ensures Truthy(cfg.url) && !ReadyToPost(cfg) ==> d == Delivery([], Failed(MissingCredentials))
    ensures ReadyToPost(cfg) ==>
      d.effects == [Post(cfg.url.value, cfg.user.value, cfg.password.value, data)]
      && d.result == CheckResponse(response)
    ensures d.effects == [] <==> d.result == Failed(MissingUrl) || d.result == Failed(MissingCredentials)
    ensures d.result.Accepted? <==> ReadyToPost(cfg) && response.Status? && response.code < 400
  {
    if !Truthy(cfg.url) then Delivery([], Failed(MissingUrl))
    else if !Truthy(cfg.user) || !Truthy(cfg.password) then Delivery([], Failed(MissingCredentials))
    else
      var post := Post(cfg.url.value, cfg.user.value, cfg.password.value, data);
      Delivery([post], CheckResponse(response))
  }

  /** The checks come before the request: with a setting missing, what the
      endpoint would have answered makes no difference. */
  lemma ChecksPrecedePost(cfg: Config, data: seq<Json>, r1: HttpResponse, r2: HttpResponse)
    requires !ReadyToPost(cfg)
    ensures SendLogs(cfg, data, r1) == SendLogs(cfg, data, r2)
    ensures SendLogs(cfg, data, r1).effects == [] && SendLogs(cfg, data, r1).result.Failed?
  {
  }

  // ---------------------------------------------------------------------------
  // The sink

  /** `ElasticSearchHandler().handle_logs(records)`, with today's date, the
      endpoint's answer, the random suffix of an archival key and the object
      store's answer given as inputs. `handedOver` is what the handler passes
      to the archival sink, None when it does not call it. */
  method HandleLogs(cfg: Config, records: seq<LogRecord>, today: Day, response: HttpResponse,
                    suffix: string, storage: Storage)
    returns (run: Run, handedOver: Option<seq<LogRecord>>)
    // An empty batch: False, nothing sent, no fallback.
    ensures records == [] ==> run == Run([], Returned(false)) && handedOver == None
    // Otherwise True, whether sending worked or not; only the archival sink's
    // exception can escape instead.
    ensures records != [] ==> run.outcome != Returned(false)
    ensures run.outcome == Raised ==> handedOver.Some? && storage == StorageFailed
    // The fallback runs exactly when sending failed, for whatever reason, and
    // receives the records unchanged.
    ensures handedOver.Some? <==>
      records != [] && (!ReadyToPost(cfg) || response.TransportError? || response.code >= 400)
    ensures handedOver.Some? ==> handedOver.value == records
    // The effects: the POST of the batch's payload, if the settings allow it,
    // followed by whatever the archival sink does with the same records.
    ensures records != [] ==>
      var payload := BulkPayload(records, GenerateKeyName(cfg.functionName, today),
                                 LogStreamName(cfg.logStreamName));
      var sent := SendLogs(cfg, payload, response);
      var fallback := S3.HandleLogs(cfg.s3Bucket, records, suffix, storage);
      run.effects == sent.effects + (if handedOver.Some? then fallback.effects else [])
      && (handedOver.Some? ==>
            run.outcome == (if fallback.outcome == Raised then Raised else Returned(true)))
      && (handedOver.None? ==> run.outcome == Returned(true))
  {
    if records == [] {
      return Run([], Returned(false)), None;
    }
    var indexName := GenerateKeyName(cfg.functionName, today);
    var logStreamName := LogStreamName(cfg.logStreamName);
    var data := FormatRecords(records, indexName, logStreamName);
    var sent := SendLogs(cfg, data, response);
    if sent.result.Accepted? {
      run, handedOver := Run(sent.effects, Returned(true)), None;
    } else {
      var fallback := S3.HandleLogs(cfg.s3Bucket, records, suffix, storage);
      handedOver := Some(records);
      run := Run(sent.effects + fallback.effects,
                 if fallback.outcome == Raised then Raised else Returned(true));
    }
  }

  // ---------------------------------------------------------------------------
  // The scenarios of the handler's tests

  /** Two records, index "index_name", stream "log_stream_name": the payload
      the formatting test spells out value by value. */
  lemma FormatRecordsExample()
    ensures BulkPayload([LogRecord(Start, DateTime(2020, 5, 22, 10, 20, 30, 123456), "Log Message A"),
                         LogRecord(Function, DateTime(2020, 5, 22, 10, 20, 30, 123456), "Message B")],
                        "index_name", "log_stream_name")
      == [JObject([("index", JObject([("_index", JString("index_name"))]))]),
          JObject([("@timestamp", JString("2020-05-22T10:20:30.123456")),
                   ("log_type", JString("START")),
                   ("log_stream_name", JString("log_stream_name")),
                   ("log", JString("Log Message A"))]),
          JObject([("index", JObject([("_index", JString("index_name"))]))]),
          JObject([("@timestamp", JString("2020-05-22T10:20:30.123456")),
                   ("log_type", JString("FUNCTION")),
                   ("log_stream_name", JString("log_stream_name")),
                   ("log", JString("Message B"))])]
  {
    IsoFormatExample();
    var t: Timestamp := DateTime(2020, 5, 22, 10, 20, 30, 123456);
    var r1, r2 := LogRecord(Start, t, "Log Message A"), LogRecord(Function, t, "Message B");
    assert [r1, r2][1..] == [r2];
  }

  /** The index name for function "func" on 2022-10-14. */
  lemma IndexNameExample()
    ensures GenerateKeyName(Some("func"), Date(2022, 10, 14)) == "lambda-func-2022-10-14"
  {
    IsoDateTestDayExample();
  }

  /** The settings of the handler's tests: URL, user, password, function and
      stream name set, and the given bucket. */
  function TestConfig(bucket: Option<string>): Config {
    Config(Some("https://example.com/"), Some("user"), Some("password"),
           Some("func"), Some("log_stream_name"), bucket)
  }

  lemma HappyFlowPayload()
    ensures BulkPayload([LogRecord(Start, DateTime(2020, 5, 22, 10, 20, 30, 0), "Log Message A")],
                        "lambda-func-2022-10-14", "log_stream_name")
      == [JObject([("index", JObject([("_index", JString("lambda-func-2022-10-14"))]))]),
          JObject([("@timestamp", JString("2020-05-22T10:20:30")),
                   ("log_type", JString("START")),
                   ("log_stream_name", JString("log_stream_name")),
                   ("log", JString("Log Message A"))])]
  {
    IsoFormatWholeSecondExample();
    var t: Timestamp := DateTime(2020, 5, 22, 10, 20, 30, 0);
    assert [LogRecord(Start, t, "Log Message A")][1..] == [];
  }

  lemma HappyFlowSend()
    ensures var records := [LogRecord(Start, DateTime(2020, 5, 22, 10, 20, 30, 0), "Log Message A")];
      var cfg := TestConfig(None);
      var payload := BulkPayload(records, GenerateKeyName(cfg.functionName, Date(2022, 10, 14)),
                                 LogStreamName(cfg.logStreamName));
      var sent := SendLogs(cfg, payload, Status(200, "{\"acknowledged\": true}"));
      sent.result.Accepted? &&
      sent.effects == [Post("https://example.com/", "user", "password",
        [JObject([("index", JObject([("_index", JString("lambda-func-2022-10-14"))]))]),
         JObject([("@timestamp", JString("2020-05-22T10:20:30")),
                  ("log_type", JString("START")),
                  ("log_stream_name", JString("log_stream_name")),
                  ("log", JString("Log Message A"))])])]
  {
    IndexNameExample();
    HappyFlowPayload();
  }

  /** One record, an endpoint that answers 200: True, one POST of the one
      directive and document, and no fallback. The index name in the expected
      payload holds the fixed date 2022-10-14, while the handler takes today's
      date; the scenario supplies that date as today, the only day on which
      the expected payload is produced. */
  method HappyFlowScenario(suffix: string, storage: Storage) returns (run: Run, handedOver: Option<seq<LogRecord>>)
    ensures run.outcome == Returned(true) && handedOver == None
    ensures run.effects == [Post("https://example.com/", "user", "password",
      [JObject([("index", JObject([("_index", JString("lambda-func-2022-10-14"))]))]),
       JObject([("@timestamp", JString("2020-05-22T10:20:30")),
                ("log_type", JString("START")),
                ("log_stream_name", JString("log_stream_name")),
                ("log", JString("Log Message A"))])])]
  {
    var t: Timestamp := DateTime(2020, 5, 22, 10, 20, 30, 0);
    var records := [LogRecord(Start, t, "Log Message A")];
    var cfg := TestConfig(None);
    var response := Status(200, "{\"acknowledged\": true}");
    run, handedOver := HandleLogs(cfg, records, Date(2022, 10, 14), response, suffix, storage);
    HappyFlowSend();
  }

  lemma FallbackArchive(suffix: string)
    ensures var records := [LogRecord(Start, DateTime(2020, 5, 22, 10, 20, 30, 123456), "a")];
      var fallback := S3.HandleLogs(Some("123"), records, suffix, Stored);
      fallback.outcome == Returned(true) &&
      fallback.effects == [Put("123", S3.GenerateKeyName(records, suffix),
                               "2020-05-22T10:20:30.123456    START     a")]
  {
    S3.FormatRecordExample();
  }

  lemma FallbackSend()
    ensures var records := [LogRecord(Start, DateTime(2020, 5, 22, 10, 20, 30, 123456), "a")];
      var cfg := TestConfig(Some("123"));
      var payload := BulkPayload(records, GenerateKeyName(cfg.functionName, Date(2022, 10, 14)),
                                 LogStreamName(cfg.logStreamName));
      var sent := SendLogs(cfg, payload, Status(400, "{\"acknowledged\": true}"));
      sent.result == Failed(HttpCode(400)) &&
      sent.effects == [Post("https://example.com/", "user", "password", payload)]
  {
  }

  /** One record, an endpoint that answers 400 and a bucket "123" that accepts
      the put: still True, and the record is archived as one padded line. */
  method FallbackScenario(suffix: string) returns (run: Run, handedOver: Option<seq<LogRecord>>)
    ensures run.outcome == Returned(true)
    ensures handedOver == Some([LogRecord(Start, DateTime(2020, 5, 22, 10, 20, 30, 123456), "a")])
    ensures |run.effects| == 2 && run.effects[0].Post? && run.effects[1].Put?
    ensures run.effects[1].bucket == "123"
    ensures run.effects[1].body == "2020-05-22T10:20:30.123456    START     a"
  {
    var t: Timestamp := DateTime(2020, 5, 22, 10, 20, 30, 123456);
    var records := [LogRecord(Start, t, "a")];
    var cfg := TestConfig(Some("123"));
    var response := Status(400, "{\"acknowledged\": true}");
    run, handedOver := HandleLogs(cfg, records, Date(2022, 10, 14), response, suffix, Stored);
    FallbackArchive(suffix);
    FallbackSend();
  }
}
