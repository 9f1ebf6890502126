# Lambda log shipper: the two sinks

A model of the two delivery sinks of the lambda log shipper, an AWS Lambda
extension that collects a function's log records and delivers them in
batches.

- The **archival sink** (`S3Handler`) writes a batch as one text object to an
  S3 bucket. Each record becomes one column-padded line. The object key is
  derived from the earliest record's time plus a random suffix.
- The **search sink** (`ElasticSearchHandler`) posts a batch to the configured
  endpoint (`LOGS_ELASTICSEARCH_URL`). The body is one JSON array that
  alternates an index directive and one document per record. When the post cannot be made or is rejected, the search
  sink hands the same batch to the archival sink and still reports success.

The outside world becomes explicit data:

- **Environment.** The environment variables become a `Config` value. The
  archival bucket becomes an `Option<string>` parameter.
- **Clock and randomness.** `date.today()` becomes a `Day` parameter.
  `random.random()` becomes the key `suffix` string.
- **HTTP.** The response to `requests.post` is an `HttpResponse` input: a
  transport error, or a status code with its text.
- **S3.** The answer to `put_object` is a `Storage` input. The put itself is
  recorded as an `Effect`.
- **Outcomes.** A handler run is a `Run`: the effects in order, and an outcome
  that is either the returned bool or an escaping exception (`Raised`).

Files:

- `options.dfy`: `Option`.
- `decimal.dfy`: decimal numerals.
  - `str(n)` is modelled as `NatToString`.
  - Zero-filled fields are modelled as `ZeroPad`.
  - The value a numeral denotes is `DecimalValue`. It inverts both of the above.
- `strings.dfy`: the Python string operations the sinks use.
  - Left-justified padding, as the format spec `:{width}` does it.
  - `sep.join`.
  - Two reading functions the sinks never call: `Split` inverts the join and
    `TrimRight` inverts the padding. They exist to state the round trips.
- `log_records.dfy`: log records and their times.
  - `LogType`, `Date`/`Day`, `DateTime`/`Timestamp` and `LogRecord`.
  - `date.isoformat()` with its parser `ParseIsoDate`, and
    `datetime.isoformat()` with its shape lemma `IsoFormatShape`.
  - The chronological order that `min` uses.
- `sinks.dfy`: the data the two sinks share: JSON values, effects, storage
  answers and outcomes.
- `s3_handler.dfy`: the archival sink.
- `elasticsearch_handler.dfy`: the search sink.

Where the code goes beyond a plain reading of the intended behaviour, the
model follows the code:

- **Empty values count as unset.** Python treats an empty string as false.
  So an empty log-stream name also falls back to `"unknown_log_stream"`. An
  empty bucket name also disables archival. An empty URL, user or password
  also fails the configuration checks.
- **Status 400 is a failure.** The exception's docstring says "over 400", but
  the test is `>= 400`, so status 400 itself counts as a failure.
- **An unset function name prints as "None".** When
  `AWS_LAMBDA_FUNCTION_NAME` is unset, the f-string writes the text `None`
  into the index name.
- **The fallback's result is ignored.** The search sink returns True after a
  failed send even when the archival sink returns False, for example when no
  bucket is configured. Only an exception raised by the archival sink's
  `put_object` escapes.

## Model

| member | source | states |
|---|---|---|
| S3Handler.HandleLogs | src/lambda_log_shipper/handlers/s3_handler.py:15-24 | Returns False exactly when it has no effect, and that happens exactly when the bucket is unset or empty or there are no records. Otherwise there is exactly one put: to the configured bucket, under `GenerateKeyName(records, suffix)`, with body `FormatRecords(records)`. The call then returns True if storage accepts the put, and raises if it fails. |
| S3Handler.HandleLogsPut | src/lambda_log_shipper/handlers/s3_handler.py:16-23 | With a bucket and records, the single put goes to that bucket. Its key parses back to the earliest log time and the suffix. When no payload contains a newline, its body splits on newlines back into exactly the records' lines. |
| S3Handler.GenerateKeyName | src/lambda_log_shipper/handlers/s3_handler.py:26-30 | Definition of `generate_key_name`: KeyFor of the earliest log time (MinTime) and the suffix. Its contract is stated by MinTime, KeyForRendered, KeyRoundTrip, KeyFromFields and KeyOnlySuffixVaries. |
| S3Handler.KeyFor | src/lambda_log_shipper/handlers/s3_handler.py:29-30 | Definition of the two f-strings: the directory, then the time fields and the suffix. Its layout is stated by KeyForRendered and its inverse by KeyRoundTrip and KeyFromFields. |
| S3Handler.MinFrom | src/lambda_log_shipper/handlers/s3_handler.py:28 | The left-to-right scan of `min` returns the starting value or one of the scanned times. None of them is earlier than the result. |
| S3Handler.MinTime | src/lambda_log_shipper/handlers/s3_handler.py:28 | `min(r.log_time for r in records)` is the log time of some record, and no record's time is earlier. |
| S3Handler.MinTimeUnique | src/lambda_log_shipper/handlers/s3_handler.py:28 | Any time that belongs to a record and has no earlier record is the minimum: the minimum is fully determined by those two properties. |
| S3Handler.MinTimePermutation | src/lambda_log_shipper/handlers/s3_handler.py:28 | Reordering the records does not change the minimum time. |
| S3Handler.MinTimeAddLater | src/lambda_log_shipper/handlers/s3_handler.py:28 | Adding a record whose time is not earlier than the minimum does not change the minimum. |
| S3Handler.KeyForRendered | src/lambda_log_shipper/handlers/s3_handler.py:29-30 | The key is "logs/", then year, month and day each followed by "/", then hour, minute and second each followed by ":", then the microsecond and "-", all in unpadded decimal, then the suffix. |
| S3Handler.KeyRoundTrip | src/lambda_log_shipper/handlers/s3_handler.py:26-30 | Parsing a generated key recovers the earliest log time of the batch and the random suffix. Different earliest times therefore give different keys. |
| S3Handler.KeyFromFields | src/lambda_log_shipper/handlers/s3_handler.py:29-30 | Conversely, every string that parses as a key is exactly the key built from the time and suffix it parses to. |
| S3Handler.KeyOnlySuffixVaries | src/lambda_log_shipper/handlers/s3_handler.py:28-30 | For the same records in any order, two keys differ only in the random suffix. They are equal exactly when the suffixes are. |
| S3Handler.FormatRecord | src/lambda_log_shipper/handlers/s3_handler.py:36-38 | Definition of `_format_record`: the padded isoformat time, the padded type value and the payload. Its contract is stated by FormatRecordLayout, FormatRecordRoundTrip and LineNoNewline. |
| S3Handler.FormatRecordLayout | src/lambda_log_shipper/handlers/s3_handler.py:36-38 | A line is TIME_PADDING + TYPE_PADDING + the payload length long. It holds the isoformat time padded with spaces to column 30, then the type value padded with spaces to column 40, then the payload unchanged. Neither field is cut. |
| S3Handler.ColumnsRoundTrip | src/lambda_log_shipper/handlers/s3_handler.py:38 | Any two fields that fit their columns and do not end in a space, followed by any text, read back by column to the same three parts. |
| S3Handler.FormatRecordRoundTrip | src/lambda_log_shipper/handlers/s3_handler.py:38 | Reading a line back by its columns, with trailing spaces trimmed, gives the timestamp text, the type value and the payload: the padding loses nothing. |
| S3Handler.LineNoNewline | src/lambda_log_shipper/handlers/s3_handler.py:38 | A line contains a line break only if its payload does: the timestamp, the type and the padding never contain one. |
| S3Handler.FormatRecords | src/lambda_log_shipper/handlers/s3_handler.py:32-34 | Definition of `format_records` before encoding: the lines joined by "\n". Its contract is stated by Lines, FormatRecordsLast and FormatRecordsSplit. |
| S3Handler.Lines | src/lambda_log_shipper/handlers/s3_handler.py:34 | Mapping `_format_record` gives one line per record, in input order. |
| S3Handler.FormatRecordsLast | src/lambda_log_shipper/handlers/s3_handler.py:34 | The body is the previous records' body, then a single "\n", then the last record's line. The body of one record is its line alone, so there is no trailing newline. |
| S3Handler.FormatRecordsSplit | src/lambda_log_shipper/handlers/s3_handler.py:34 | When no payload contains a newline, splitting the body on "\n" gives back exactly the records' lines, in order. |
| S3Handler.PaddingExample | src/lambda_log_shipper/handlers/s3_handler.py:38 | The test timestamp padded to 30 columns gains four spaces; "START" padded to 10 columns gains five. |
| S3Handler.FormatLineExample | src/test/lambda_log_shipper/handlers/test_elasticsearch_handler.py:75-84 | The record (START, 2020-05-22 10:20:30.123456, "a") formats to "2020-05-22T10:20:30.123456    START     a". |
| S3Handler.FormatRecordExample | src/test/lambda_log_shipper/handlers/test_elasticsearch_handler.py:75-84 | The archived body of that single record is exactly that line. |
| ElasticSearchHandler.LogStreamName | src/lambda_log_shipper/handlers/elasticsearch_handler.py:23 | The stream name is the environment value when it is set and non-empty, and "unknown_log_stream" otherwise. It is never empty. |
| ElasticSearchHandler.FunctionNameText | src/lambda_log_shipper/handlers/elasticsearch_handler.py:65-66 | How the f-string prints the function name: the value when set, and "None" when unset. Used by GenerateKeyName and IndexNamePerDay. |
| ElasticSearchHandler.GenerateKeyName | src/lambda_log_shipper/handlers/elasticsearch_handler.py:61-66 | The index name is "lambda-", the function name ("None" when unset), "-", and a ten-character date that parses back to today. |
| ElasticSearchHandler.IndexNamePerDay | src/lambda_log_shipper/handlers/elasticsearch_handler.py:61-66 | Two index names are equal exactly when the days and the function names' texts are equal: one index per function per day. |
| ElasticSearchHandler.IndexDirective | src/lambda_log_shipper/handlers/elasticsearch_handler.py:72 | Definition of the index object `{"index": {"_index": index_name}}`. Its position in the payload is stated by BulkPayloadAt and FormatRecords. |
| ElasticSearchHandler.Document | src/lambda_log_shipper/handlers/elasticsearch_handler.py:74 | Definition of one record's document. Its keys and values are stated by DocumentFields. |
| ElasticSearchHandler.DocumentFields | src/lambda_log_shipper/handlers/elasticsearch_handler.py:74 | A document has exactly the keys @timestamp, log_type, log_stream_name and log, in that order. They hold the isoformat time (19 characters, or 26 with a fraction), the type value, the stream name and the payload verbatim. |
| ElasticSearchHandler.BulkPayload | src/lambda_log_shipper/handlers/elasticsearch_handler.py:68-76 | Reference definition of the payload, record by record. Its layout is stated by BulkPayloadLength, BulkPayloadElement, BulkPayloadAt and BulkPayloadUnique, and the loop in FormatRecords is proved equal to it. |
| ElasticSearchHandler.BulkPayloadLength | src/lambda_log_shipper/handlers/elasticsearch_handler.py:68-76 | The payload has two values per record. |
| ElasticSearchHandler.BulkPayloadElement | src/lambda_log_shipper/handlers/elasticsearch_handler.py:70-76 | For each record i, element 2i is the index directive and element 2i+1 is record i's document. |
| ElasticSearchHandler.BulkPayloadAt | src/lambda_log_shipper/handlers/elasticsearch_handler.py:70-76 | The same for all records at once, with the length. |
| ElasticSearchHandler.BulkPayloadUnique | src/lambda_log_shipper/handlers/elasticsearch_handler.py:70-76 | Conversely, any sequence of that length with those elements is the payload, so the layout determines it completely. |
| ElasticSearchHandler.FormatRecords | src/lambda_log_shipper/handlers/elasticsearch_handler.py:68-76 | The append loop yields 2·n values in record order: index directive at 2i, record i's document at 2i+1. That is exactly the bulk payload. |
| ElasticSearchHandler.CheckResponse | src/lambda_log_shipper/handlers/elasticsearch_handler.py:57-59 | Status below 400 returns the response text. Status 400 or more fails with that code. A failed request fails as a request error. |
| ElasticSearchHandler.SendLogs | src/lambda_log_shipper/handlers/elasticsearch_handler.py:35-59 | A missing or empty URL fails first. Otherwise a missing or empty user or password fails. In both cases there is no POST. Otherwise exactly one POST of the data goes to the URL with the credentials, and the response check decides the result. There is no POST exactly when a configuration check failed. Success happens exactly when the configuration is complete and the status is below 400. |
| ElasticSearchHandler.ChecksPrecedePost | src/lambda_log_shipper/handlers/elasticsearch_handler.py:37-47 | With incomplete configuration, the result fails with no POST, whatever the endpoint would have answered. |
| ElasticSearchHandler.HandleLogs | src/lambda_log_shipper/handlers/elasticsearch_handler.py:18-33 | An empty batch returns False, with no effects and no fallback. Otherwise the call returns True, whether sending succeeded or failed; only an exception from the archival sink's put escapes. The fallback runs exactly when sending failed (incomplete configuration, transport error or status ≥ 400), and it receives the original records. The effects are the send's POST, if any, followed by the archival sink's effects on a failed send. |
| ElasticSearchHandler.FormatRecordsExample | src/test/lambda_log_shipper/handlers/test_elasticsearch_handler.py:39-50 | The two test records give the four expected values: directive, START document, directive, FUNCTION document. |
| ElasticSearchHandler.IndexNameExample | src/test/lambda_log_shipper/handlers/test_elasticsearch_handler.py:26-36 | Function "func" on 2022-10-14 gives the index "lambda-func-2022-10-14". |
| ElasticSearchHandler.HappyFlowPayload | src/test/lambda_log_shipper/handlers/test_elasticsearch_handler.py:65 | The happy-flow record's payload is the directive plus a document whose timestamp "2020-05-22T10:20:30" has no fraction. |
| ElasticSearchHandler.HappyFlowSend | src/test/lambda_log_shipper/handlers/test_elasticsearch_handler.py:52-65 | With the test configuration and status 200, sending succeeds with one POST of that payload to the test URL. |
| ElasticSearchHandler.HappyFlowScenario | src/test/lambda_log_shipper/handlers/test_elasticsearch_handler.py:52-65 | The happy flow returns True after exactly one POST of the expected payload, with no fallback. The expected index name holds the fixed date 2022-10-14 while the handler reads today's date, so the scenario supplies that day as today. |
| ElasticSearchHandler.FallbackSend | src/test/lambda_log_shipper/handlers/test_elasticsearch_handler.py:78 | With status 400, sending fails with code 400 after posting once. |
| ElasticSearchHandler.FallbackArchive | src/test/lambda_log_shipper/handlers/test_elasticsearch_handler.py:75-84 | Archiving the test record in bucket "123" returns True. Its one put has body "2020-05-22T10:20:30.123456    START     a". |
| ElasticSearchHandler.FallbackScenario | src/test/lambda_log_shipper/handlers/test_elasticsearch_handler.py:67-84 | With status 400 and bucket "123", the call still returns True. It first posts once, then the fallback receives the original record unchanged and puts it once into "123", with the expected one-line body. |
| LogRecords.IsoDate | src/lambda_log_shipper/handlers/elasticsearch_handler.py:64 | Definition of `str(date)`. Its contract is stated by IsoDateShape and IsoDateRoundTrip. |
| LogRecords.IsoFormat | src/lambda_log_shipper/handlers/s3_handler.py:38 | Definition of `datetime.isoformat()`. Its contract is stated by IsoFormatShape. |
| LogRecords.IsoDateShape | src/lambda_log_shipper/handlers/elasticsearch_handler.py:63 | `str(date)` is ten characters: four, two and two zero-filled digits that denote the year, month and day, separated by dashes. |
| LogRecords.IsoDateRoundTrip | src/lambda_log_shipper/handlers/elasticsearch_handler.py:63 | Parsing a formatted date gives the date back, so distinct days format differently. |
| LogRecords.IsoFormatShape | src/lambda_log_shipper/handlers/s3_handler.py:38 | `isoformat()` is 19 characters when the microsecond is 0, and 26 otherwise. It holds the date, "T", then hour, minute and second as two zero-filled digits each between ":" separators, then "." and six microsecond digits when there is a fraction. |
| LogRecords.EarlierTotal | src/lambda_log_shipper/handlers/s3_handler.py:28 | The datetime comparison `min` uses is a strict total order: trichotomous and irreflexive. |
| LogRecords.EarlierTransitive | src/lambda_log_shipper/handlers/s3_handler.py:28 | That comparison is transitive. |
| LogRecords.IsoFormatExample | src/test/lambda_log_shipper/handlers/test_elasticsearch_handler.py:40-49 | 2020-05-22 10:20:30.123456 formats as "2020-05-22T10:20:30.123456". |
| LogRecords.IsoFormatWholeSecondExample | src/test/lambda_log_shipper/handlers/test_elasticsearch_handler.py:56-65 | 2020-05-22 10:20:30 formats as "2020-05-22T10:20:30", with no fraction. |
| LogRecords.IsoDateTestDayExample | src/test/lambda_log_shipper/handlers/test_elasticsearch_handler.py:65 | 2022-10-14 formats as "2022-10-14". |
| Decimal.NatToString | src/lambda_log_shipper/handlers/s3_handler.py:29-30 | Definition of `str(n)` for the key's unpadded fields. Its contract is stated by NatToStringCanonical, DecimalRoundTrip and CanonicalRoundTrip. |
| Decimal.NatToStringCanonical | src/lambda_log_shipper/handlers/s3_handler.py:29-30 | The key's unpadded integers are canonical numerals: only digits, and no leading zero unless the number is 0. |
| Decimal.DecimalRoundTrip | src/lambda_log_shipper/handlers/s3_handler.py:29-30 | An unpadded numeral is canonical, and reading it back gives the number. |
| Decimal.CanonicalRoundTrip | src/lambda_log_shipper/handlers/s3_handler.py:29-30 | Every canonical numeral is the rendering of its value. |
| Decimal.ZeroPad | src/lambda_log_shipper/handlers/s3_handler.py:38 | Definition of the zero-filled isoformat fields. Its contract is stated by ZeroPadValue. |
| Decimal.ZeroPadValue | src/lambda_log_shipper/handlers/s3_handler.py:38 | A zero-filled field is all digits and denotes the number. It is as long as the width when the number fits, and is never cut. |
| Strings.LeftJustify | src/lambda_log_shipper/handlers/s3_handler.py:38 | `:{width}` padding keeps the text as a prefix and fills with spaces up to `max(len, width)`. |
| Strings.TrimLeftJustified | src/lambda_log_shipper/handlers/s3_handler.py:38 | Trimming trailing spaces undoes the padding of a text that does not end in a space. |
| Strings.Join | src/lambda_log_shipper/handlers/s3_handler.py:34 | Definition of `"\n".join`. Its contract is stated by JoinSnoc, SplitJoin and JoinSplit. |
| Strings.SplitAt | src/lambda_log_shipper/handlers/s3_handler.py:34 | Finding a separator fails exactly when the separator is absent. Otherwise it splits at the first occurrence. |
| Strings.SplitJoin | src/lambda_log_shipper/handlers/s3_handler.py:34 | Splitting a `"\n".join` of separator-free parts gives back the parts. |
| Strings.JoinSplit | src/lambda_log_shipper/handlers/s3_handler.py:34 | Joining the pieces of a split gives back the text. |
| Strings.JoinSnoc | src/lambda_log_shipper/handlers/s3_handler.py:34 | Joining one more part adds exactly one separator and then that part. |

## Left out

- **Clients.** The boto3 client and the requests session are not modelled.
  Their answers are inputs (`Storage`, `HttpResponse`). The `Content-Type`
  header and the HTTP Basic Authentication encoding (RFC 7617) that requests
  performs are not modelled either.
- **Logging.** All logger calls are left out; they only write to a side channel.
- **Environment, clock and randomness.** `os.environ`, `Configuration`,
  `date.today()` and `random.random()` are parameters. The model does not
  restrict the random suffix to the text of a float.
- **`json.dumps`.** Serialisation is left out: string escaping,
  `ensure_ascii`, and the separators. The bulk payload is a sequence of
  structured `Json` values, and objects keep their insertion order.
- **Encoding.** `.encode()` of the archived body to UTF-8 bytes is left out. The
  body is the text before encoding.
- **`LogRecord` and `LogType`.** Their defining module, `base_handler.py`, is
  not part of this model. `LogType` is modelled as the five tags START, END,
  REPORT, FUNCTION and PLATFORM with those values.
- **Other exceptions.** The broad `except Exception` would also catch
  programming errors inside `send_logs`. Only the failures `send_logs` itself
  raises are modelled: missing configuration, a failed request, and a status of
  400 or more.
- S3Handler.GenerateKeyName: requires a non-empty batch, because Python's `min`
  raises on an empty sequence. Its only caller checks for records first.
