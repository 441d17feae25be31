# log-stat, modelled in Dafny

log-stat reads a systemd journal dump, one JSON object per line (the output of
`journalctl -o json`), and reports how many lines it saw, how many message
bytes they carried, how the lines split over the journal's transports
(facilities), and, for every systemd unit, how many lines at which priority it
wrote.

This project models the two layers of that tool and proves what they promise.

* **The classifier** (`src/model.rs`, modules `Model` and `ModelProps`). A line
  is either not a JSON object or a map from keys to values, a value being a
  string (with a flag telling whether its JSON spelling used an escape) or
  some other JSON value. The field `_TRANSPORT` picks one of seven record
  shapes (`journal`, `kernel`, `stdout`, `audit`, `syslog`, `driver`, and the
  un-renamed `Invalid`). Each shape is a list of field rules: the key, how the
  value is read (a decimal string parsed into `u8`, `u16` or `u64`; a string
  that must be borrowable; a microsecond timestamp), and whether a missing
  key is an error or takes a default (`"unknown"` for the unit and the
  identifier, 0 for the priority of Journal, Audit and Invalid). Integer
  parsing follows Rust's `from_str` digit loop, including which error it
  reports. `datefmt` splits microseconds into seconds (rounded toward zero)
  and a nanosecond part computed after truncating the value to its low 32
  bits, and panics when the text is not an `i64` or the seconds fall outside
  chrono's calendar. `deserialize_fallback` tries the tagged decode, then the
  looser `Invalid` shape, whose `error` receives the first decode's message,
  and otherwise returns the second decode's error. A decode has three
  outcomes: a value, an error, or a panic.
* **The aggregator** (`src/lib.rs`, modules `LogStat`, `LogStatProps` and the
  helper module `MapSums`). `Count` walks the lines with a loop, classifies
  each one and updates its counters in place. A line that neither decode
  accepts ends the walk with that line's error or panic. `Count` is proved
  equal to a functional fold (`CountSpec`), and the lemmas state each
  counter's meaning in terms of the classified records. `TotalLineCount` is
  the loop that sums a unit's priority histogram. `CompareCount` is the
  three-way comparison of two such sums.

Three behaviours of the code are kept as written, and a reader might expect otherwise:
- A non-numeric or out-of-range timestamp text makes `datefmt` panic (src/model.rs:263-264). It does not just fail the classification.
- The nanosecond part is `((s as u32) % 1_000_000) * 1000` (src/model.rs:264). It is not the remainder of `s` itself.
  For the source's own test line, 1491389822667666 microseconds become 837330000 ns, not 667666000 ns.
- A `PRIORITY` that is present but not a `u8` numeral fails both decodes (src/model.rs:223-228). The line is then a hard error; it does not become a record with priority 0.

## Model

| member | source | states |
|---|---|---|
| Model.AccumulateMeaning | src/model.rs:254 | Rust's digit loop succeeds exactly when every character is a decimal digit and the value read stays within the target type's bounds at the end; it then returns that value |
| Model.ParseInt | src/model.rs:254 | `T::from_str` succeeds exactly when the text is a decimal numeral (optional `+`, and `-` only for a signed type) whose value lies in the type's range, and returns that value |
| Model.FromStr | src/model.rs:247-255 | `from_str` accepts exactly a JSON string whose text is an unsigned numeral no larger than the type's maximum, returns its value, and never panics |
| Model.Describe | src/model.rs:283 | the text of every decode error is non-empty |
| Model.TruncDiv | src/model.rs:264 | `s / 1000000` rounds toward zero for negative and non-negative `s` alike |
| Model.DateFmt | src/model.rs:258-266 | a non-string is an error; a string yields an instant exactly when it is an `i64` numeral whose seconds lie in chrono's range, and otherwise panics; seconds are the quotient rounded toward zero; nanoseconds are `((s mod 2^32) mod 10^6) * 1000`, hence at most 999999000 |
| Model.DecodeField | src/model.rs:247-266 | a present field's value has the field's type; only a timestamp field can panic |
| Model.FieldResult | src/model.rs:268-274 | an accepted field's value, read or defaulted, has the field's type |
| Model.DecodePresent | src/model.rs:29-62 | reading the present fields succeeds exactly when each present field reads; each result is the field's value or a marker for absence; a panic comes from a present field |
| Model.FillDefaults | src/model.rs:35-46 | filling in missing fields succeeds exactly when each field is present or has a default, and never panics |
| Model.DecodeFields | src/model.rs:29-62 | a struct decodes exactly when every field is accepted; each value is the field's read or default value, of the field's type |
| Model.Fields | src/model.rs:28-244 | every default has the type of its field, and the realtime timestamp is the only timestamp field of any shape |
| Model.Build | src/model.rs:10-26 | the record built from a shape's fields is the variant of that shape, with `Invalid.error` empty |
| Model.ShapeOfTag | src/model.rs:13-25 | a `_TRANSPORT` value selects exactly the variant it names (`journal`, `kernel`, `stdout`, `audit`, `syslog`, `driver`, `Invalid`), and no variant for any other value |
| Model.DecodeShape | src/model.rs:28-244 | a shape decodes exactly when all its fields are accepted, into the variant of that shape |
| Model.DecodeLog | src/model.rs:10-26 | a non-object or a missing `_TRANSPORT` is an error; a decoded record is the variant the tag string names; a panic comes from decoding the named variant's struct |
| Model.DecodeInvalid | src/model.rs:282 | a successful loose decode is an `Invalid` record with an empty `error` |
| Model.DeserializeFallback | src/model.rs:278-288 | tagged success is returned unchanged; tagged failure with loose success gives the `Invalid` record carrying the first error's text; both failing gives the loose decode's error; a panic in either decode is a panic |
| ModelProps.DecodedFields | src/model.rs:28-244 | a decoded record is built from the fields' read or default values, position by position |
| ModelProps.DecodeFrom | src/model.rs:28-244 | when every field of a shape is accepted, the shape decodes to the record built from their values |
| ModelProps.DecodeInvalidMeaning | src/model.rs:216-244 | the `Invalid` shape decodes exactly when both timestamps are present and readable, a present identifier is borrowable and a present priority is a `u8`; identifier defaults to "unknown", priority to 0 only when absent, `error` is empty |
| ModelProps.JournalNeedsPid | src/model.rs:31-32 | a decoded Journal record's pid is the value of `_PID`; a missing, non-numeric or over-65535 `_PID` fails the Journal decode |
| ModelProps.SystemdUnitDefaults | src/model.rs:42-46 | Journal and Stdout records carry `_SYSTEMD_UNIT`, or "unknown" when it is absent |
| ModelProps.IdentifierDefaults | src/model.rs:67-71 | every shape but Journal carries `SYSLOG_IDENTIFIER`, or "unknown" when it is absent |
| ModelProps.PriorityRules | src/model.rs:35-40 | a missing `PRIORITY` fails Kernel, Stdout, Syslog and Driver; a decode without it is Journal, Audit or Invalid with priority 0; a present non-`u8` priority fails every shape; a present one is the record's priority |
| ModelProps.MessageRequired | src/model.rs:48-49 | every shape but Invalid needs `MESSAGE` as an unescaped string, which becomes the record's message |
| ModelProps.TimestampsRequired | src/model.rs:51-61 | every decoded record's instant is `datefmt` of `__REALTIME_TIMESTAMP` and its monotonic time the `u64` of `__MONOTONIC_TIMESTAMP`; both keys must be present |
| ModelProps.InvalidErrorTellsPath | src/model.rs:279-285 | an `Invalid` result has an empty `error` exactly when it came from the tagged decode |
| ModelProps.ShapePanicIsRealtime | src/model.rs:263-264 | a shape's decode panics only because `datefmt` panics on the realtime timestamp |
| ModelProps.PanickingRealtimeRejects | src/model.rs:263-264 | no shape decodes a line whose realtime timestamp makes `datefmt` panic |
| ModelProps.ClassificationMeaning | src/model.rs:278-288 | a line yields a record exactly when the tagged shape or the loose shape accepts it; the tagged record when the tagged shape accepts; else an `Invalid` record with a non-empty `error`; a panic only from a realtime timestamp that panics, and such a line never yields a record |
| ModelProps.UnparsableIsHardError | src/model.rs:282 | a line that the JSON reader rejects as a whole (not an object) is the loose decode's error, not a record |
| ModelProps.BadPriorityIsHardError | src/model.rs:223-228 | a present `PRIORITY` that is not a `u8` numeral never yields a record, not even an `Invalid` one with priority 0 |
| ModelProps.TimestamplessIsHardError | src/model.rs:233-243 | a line without both timestamps never yields a record |
| ModelProps.DirectInvalid | src/model.rs:25 | `_TRANSPORT: "Invalid"` with an acceptable loose shape decodes on the first try into an `Invalid` record with an empty `error` |
| ModelProps.SampleInstant | src/model.rs:264 | the test timestamp 1491389822667666 becomes 1491389822 s and 837330000 ns |
| ModelProps.SampleJournalRecord | src/model.rs:326-356 | the source's journal test line classifies as the Journal record (pid 1, priority 6, unit "docker.service", its message, the instant above, monotonic 71669967), whose nanoseconds differ from the 667666000 the microseconds carry |
| ModelProps.SampleByteArrayRecord | src/model.rs:360-372 | the source's test line with no `_TRANSPORT` and an array `MESSAGE` classifies as an `Invalid` record (identifier "systemd", priority 6) whose `error` is the missing-tag message |
| MapSums.Increment | src/lib.rs:113 | `entry(k).or_insert(0) += 1` adds key `k`, raises its count by one and leaves every other count alone |
| MapSums.SumOverRemove | src/lib.rs:67-69 | the sum of a histogram does not depend on the order its entries are visited in |
| MapSums.SumIncrement | src/lib.rs:125 | one get-or-insert increment raises a histogram's sum by exactly one |
| MapSums.SumSingleton | src/lib.rs:178 | a one-entry histogram sums to that entry's count |
| LogStat.CharBytes | src/lib.rs:114 | UTF-8 spends one to four bytes on a character |
| LogStat.Utf8Length | src/lib.rs:114 | `message.len()` is between one and four bytes per character |
| LogStat.Tally | src/lib.rs:110-153 | one record adds one line, its message bytes (none for Invalid) and one count in its facility's bucket; only a journal or stdout record touches the unit map, creating or updating its unit's entry and leaving every other entry as it was |
| LogStat.Summarize | src/lib.rs:105-153 | folding records gives one line per record, and every unit entry has at least one and at most that many lines |
| LogStat.CountSpec | src/lib.rs:102-159 | empty input gives the empty report, and a returned report counts one line per input line |
| LogStat.PrefixFailure | src/lib.rs:108 | once some line fails, lines after it cannot change the outcome |
| LogStat.CountFacility | src/lib.rs:109-113 | a record adds one line, its message bytes and one count in the named facility bucket, creating the bucket at one when it is new; nothing else in the totals changes |
| LogStat.CountService | src/lib.rs:120-126 | a journal or stdout record creates its unit's entry empty on first use, then adds one line, its message bytes and one count at its priority; every other unit's entry is unchanged |
| LogStat.CountRecord | src/lib.rs:110-153 | the loop body leaves the counters equal to the report folded with one more record |
| LogStat.Count | src/lib.rs:102-159 | the loop's result is the fold of the classified lines in order, or the first failing line's error or panic |
| LogStat.TotalLineCount | src/lib.rs:65-71 | the loop returns the sum of the priority histogram |
| LogStat.CompareCount | src/lib.rs:73-83 | Less, Equal or Greater exactly as the first histogram's sum is below, equal to or above the second's |
| LogStatProps.UnitBytes | src/lib.rs:124 | a unit that no record names has no message bytes |
| LogStatProps.SummarizeTotals | src/lib.rs:110-148 | `total.line` is the number of records and `total.message_length` the sum of their message bytes, zero for Invalid |
| LogStatProps.SummarizeFacility | src/lib.rs:111-153 | a facility bucket exists exactly when some record belongs to it, and holds the number of such records |
| LogStatProps.SummarizeService | src/lib.rs:116-141 | a unit has an entry exactly when some Journal or Stdout record names it; the entry's line, length and priority buckets count exactly those records |
| LogStatProps.TallyConsistent | src/lib.rs:111-153 | folding in one record keeps the facility histogram summing to `total.line` and every unit's priority histogram summing to its `line` |
| LogStatProps.SummarizeConsistent | src/lib.rs:105-153 | every report built from records satisfies both histogram-sum invariants |
| LogStatProps.NonServiceKeepsServices | src/lib.rs:142-152 | Kernel, Syslog, Audit, Driver and Invalid records leave the unit map unchanged and add one line |
| LogStatProps.InvalidAddsNoBytes | src/lib.rs:150-152 | an Invalid record adds no message bytes and is counted under "invalid" |
| LogStatProps.Utf8LengthAppend | src/lib.rs:114 | byte length adds up over concatenation |
| LogStatProps.Utf8LengthAscii | src/lib.rs:114 | an ASCII message is as many bytes long as it has characters |
| LogStatProps.CountEmpty | src/lib.rs:103-104 | empty input gives zero lines, zero bytes and empty facility and unit maps |
| LogStatProps.CollectDone | src/lib.rs:108 | the walk succeeds exactly when every line's outcome is a record |
| LogStatProps.CollectValues | src/lib.rs:105-108 | on success the records appear in the order of their lines |
| LogStatProps.CountDone | src/lib.rs:108 | `count` returns a report exactly when every line classifies |
| LogStatProps.CountReport | src/lib.rs:102-159 | a returned report is the fold of the lines' records in order; its `line` equals the number of lines and the sum of the facility histogram |
| LogStatProps.CountStopsAtFirstFailure | src/lib.rs:108 | the first line that neither decode accepts decides `count`'s error or panic |
| LogStatProps.ServiceOrderReflexive | src/lib.rs:73-83 | every unit compares Equal to itself |
| LogStatProps.ServiceOrderAntisymmetric | src/lib.rs:73-83 | a compares Less to b exactly when b compares Greater to a, and Equal is symmetric |
| LogStatProps.ServiceOrderTransitive | src/lib.rs:73-83 | Less is transitive |
| LogStatProps.ServiceOrderSample | src/lib.rs:175-190 | the test's two units (one and ten lines at priority `b'4'`) compare Less, Equal and Greater as asserted |

## Left out

- JSON lexing is not modelled: a line is "not an object" or a key-value map. JSON arrays, which serde would decode positionally into a struct, are treated as not an object.
- ModelProps.UnparsableIsHardError: a line that is malformed JSON is always a hard error here, but serde_json reads fields as it goes. If the text breaks off after a non-numeric `__REALTIME_TIMESTAMP`, or a complete object has trailing text, `datefmt` can run before the syntax error is seen, and the source panics. The model does not capture that panic; either way `count` produces no report.
- Duplicate keys in one object are not modelled (the map keeps one value per key).
- Model.DecodePresent: reads the present fields in declaration order, while serde reads them in the line's key order; whether a line decodes is the same, but when several fields are bad the model may report a different one (or an error where serde would panic, or the reverse).
- Model.Describe: gives serde's message without serde_json's " at line L column C" suffix and without the offending value.
- Model.ParseInt: follows the `from_str_radix` of the Rust releases that report an empty string or a lone sign as `Empty`.
- The `&'a str` borrow is modelled only through the "written with an escape" flag; lifetimes are not modelled.
- chrono's calendar types: an instant is kept as seconds and nanoseconds; the range check uses chrono's limits of the years -262144 and 262143.
- LogStat.Count: counters are unbounded naturals; `usize` overflow is not modelled.
- LogStat.Count: read errors (`line.unwrap()` panicking on a bad read) are not modelled; the input is the sequence of lines already read.
- The `warn!` logging in `deserialize_fallback` and `env_logger`: side effects with no effect on the result.
- The `Display` impls and the sort used for printing; the comparator itself is modelled.
- The `keywords` map of `ServiceCount` is never written and is not modelled; neither is the unused `DateTimeRange`.
- `Serialize` derives: nothing re-encodes records, so no round trip is stated.
- `src/bin/` (process spawning, argument parsing, printing) is not part of this model.
- The benchmarks and the test-only types `StringStruct`, `StrStruct` and `Xstruct`.
