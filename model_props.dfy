/**
 * What the classifier promises: the record each shape decodes to, field by
 * field; which lines yield a record, which a hard error and which a panic;
 * and how `deserialize_fallback` chooses between its two decodes.
 */
module ModelProps {
  import opened Model

  // ---------------------------------------------------------------- reference predicates

  /** The tag names a variant and every field of that variant's struct is accepted. */
  predicate TaggedAccepts(obj: JObject)
  {
    && TransportKey in obj
    && obj[TransportKey].JString?
    && ShapeOfTag(obj[TransportKey].text).Some?
    && Accepts(obj, Fields(ShapeOfTag(obj[TransportKey].text).value))
  }

  /** A `&str` field: absent, or a string written without escapes. */
  predicate BorrowableOrAbsent(obj: JObject, key: string)
  {
    key in obj ==> obj[key].JString? && !obj[key].escaped
  }

  /**
   * The looser `Invalid` shape, stated field by field: both timestamps
   * present and readable, the identifier borrowable if present, the priority
   * a `u8` if present. The tag plays no part.
   */
  predicate LooseAccepts(obj: JObject)
  {
    && RealtimeKey in obj && DateFmt(obj[RealtimeKey]).Done?
    && MonotonicKey in obj && FromStr(U64Max, obj[MonotonicKey]).Done?
    && BorrowableOrAbsent(obj, IdentifierKey)
    && (PriorityKey in obj ==> FromStr(U8Max, obj[PriorityKey]).Done?)
  }

  /** The timestamp text makes `datefmt` panic. */
  predicate RealtimePanics(obj: JObject)
  {
    RealtimeKey in obj && DateFmt(obj[RealtimeKey]).Panicked?
  }

  // ---------------------------------------------------------------- per-field facts

  lemma AcceptedAt(obj: JObject, specs: seq<FieldSpec>, i: nat)
    requires Accepts(obj, specs) && i < |specs|
    ensures FieldAccepted(obj, specs[i])
  {
  }

  /** The values a decoded struct's fields take, position by position. */
  lemma DecodedFields(shape: Shape, obj: JObject) returns (vals: seq<FieldValue>)
    requires DecodeShape(shape, obj).Done?
    ensures Conforms(vals, Fields(shape))
    ensures DecodeShape(shape, obj).value == Build(shape, vals)
    ensures forall i :: 0 <= i < |vals| ==> FieldAccepted(obj, Fields(shape)[i]) && vals[i] == FieldResult(obj, Fields(shape)[i])
  {
    vals := DecodeFields(obj, Fields(shape)).value;
  }

  /** Conversely, a shape whose every field is accepted decodes to the record built from the fields' values. */
  lemma DecodeFrom(shape: Shape, obj: JObject, vals: seq<FieldValue>)
    requires |vals| == |Fields(shape)|
    requires forall i :: 0 <= i < |vals| ==> FieldAccepted(obj, Fields(shape)[i]) && vals[i] == FieldResult(obj, Fields(shape)[i])
    ensures Conforms(vals, Fields(shape))
    ensures DecodeShape(shape, obj) == Done(Build(shape, vals))
  {
    var r := DecodeFields(obj, Fields(shape));
    assert r.Done?;
    assert r.value == vals;
  }

  /**
   * The `Invalid` shape decodes exactly when both timestamps are present and
   * readable, a present identifier is borrowable and a present priority is a
   * `u8`; the identifier defaults to "unknown", the priority to 0 (only when
   * absent), and `error` is empty.
   */
  lemma {:induction false} DecodeInvalidMeaning(obj: JObject)
    ensures DecodeInvalid(Object(obj)).Done? <==> LooseAccepts(obj)
    ensures DecodeInvalid(Object(obj)).Done? ==>
      DecodeInvalid(Object(obj)).value == Invalid(
        if IdentifierKey in obj then obj[IdentifierKey].text else DefaultSyslogIdentity,
        if PriorityKey in obj then FromStr(U8Max, obj[PriorityKey]).value else 0,
        "",
        DateFmt(obj[RealtimeKey]).value,
        FromStr(U64Max, obj[MonotonicKey]).value)
  {
    var specs := Fields(InvalidShape);
    assert Accepts(obj, specs) <==> LooseAccepts(obj) by {
      if LooseAccepts(obj) {
        forall i | 0 <= i < |specs| ensures FieldAccepted(obj, specs[i]) {
        }
      }
      if Accepts(obj, specs) {
        AcceptedAt(obj, specs, 0);
        AcceptedAt(obj, specs, 1);
        AcceptedAt(obj, specs, 2);
        AcceptedAt(obj, specs, 3);
      }
    }
    if DecodeInvalid(Object(obj)).Done? {
      var vals := DecodedFields(InvalidShape, obj);
    }
  }

  /**
   * Journal needs `_PID` as a `u16`: the record's pid is the numeral's value,
   * and a missing, non-numeric or too large `_PID` fails the decode.
   */
  lemma JournalNeedsPid(obj: JObject)
    ensures DecodeShape(JournalShape, obj).Done? ==>
      PidKey in obj && obj[PidKey].JString? && NumeralValue(obj[PidKey].text, false) == Some(DecodeShape(JournalShape, obj).value.pid as int)
    ensures (PidKey !in obj || !FromStr(U16Max, obj[PidKey]).Done?) ==> !DecodeShape(JournalShape, obj).Done?
  {
    if DecodeShape(JournalShape, obj).Done? {
      var vals := DecodedFields(JournalShape, obj);
      assert FieldAccepted(obj, PidField);
    }
  }

  /** Journal and Stdout records carry `_SYSTEMD_UNIT`, or "unknown" when it is absent. */
  lemma SystemdUnitDefaults(shape: Shape, obj: JObject)
    requires shape == JournalShape || shape == StdoutShape
    requires DecodeShape(shape, obj).Done?
    ensures BorrowableOrAbsent(obj, SystemdUnitKey)
    ensures DecodeShape(shape, obj).value.systemdUnit ==
      if SystemdUnitKey in obj then obj[SystemdUnitKey].text else DefaultSystemdUnit
  {
    var vals := DecodedFields(shape, obj);
    assert FieldAccepted(obj, SystemdUnitField);
  }

  /** Every shape but Journal reads `SYSLOG_IDENTIFIER`, defaulting to "unknown". */
  lemma IdentifierDefaults(shape: Shape, obj: JObject)
    requires shape != JournalShape
    requires DecodeShape(shape, obj).Done?
    ensures BorrowableOrAbsent(obj, IdentifierKey)
    ensures DecodeShape(shape, obj).value.identifier ==
      if IdentifierKey in obj then obj[IdentifierKey].text else DefaultSyslogIdentity
  {
    var vals := DecodedFields(shape, obj);
    assert FieldAccepted(obj, IdentifierField);
  }

  /**
   * `PRIORITY` is required by Kernel, Stdout, Syslog and Driver; Journal,
   * Audit and Invalid default it to 0 when it is absent. A present priority
   * must be a `u8` numeral for every shape.
   */
  lemma PriorityRules(shape: Shape, obj: JObject)
    ensures PriorityKey !in obj && shape in {KernelShape, StdoutShape, SyslogShape, DriverShape} ==>
      !DecodeShape(shape, obj).Done?
    ensures PriorityKey in obj && !FromStr(U8Max, obj[PriorityKey]).Done? ==> !DecodeShape(shape, obj).Done?
    ensures DecodeShape(shape, obj).Done? && PriorityKey !in obj ==>
      shape in {JournalShape, AuditShape, InvalidShape} && DecodeShape(shape, obj).value.priority == 0
    ensures DecodeShape(shape, obj).Done? && PriorityKey in obj ==>
      obj[PriorityKey].JString? && NumeralValue(obj[PriorityKey].text, false) == Some(DecodeShape(shape, obj).value.priority as int)
  {
    var specs := Fields(shape);
    var k := if shape == StdoutShape then 2 else 1;
    assert specs[k].key == PriorityKey;
    if DecodeShape(shape, obj).Done? {
      var vals := DecodedFields(shape, obj);
      assert FieldAccepted(obj, specs[k]);
    } else if PriorityKey !in obj || !FromStr(U8Max, obj[PriorityKey]).Done? {
    }
  }

  /** Every shape but Invalid needs `MESSAGE` as a string written without escapes. */
  lemma MessageRequired(shape: Shape, obj: JObject)
    requires shape != InvalidShape
    ensures DecodeShape(shape, obj).Done? ==>
      MessageKey in obj && obj[MessageKey] == JString(DecodeShape(shape, obj).value.message, false)
    ensures MessageKey !in obj ==> !DecodeShape(shape, obj).Done?
  {
    var specs := Fields(shape);
    var k := if shape == JournalShape || shape == StdoutShape then 3 else 2;
    assert specs[k] == MessageField;
    if DecodeShape(shape, obj).Done? {
      var vals := DecodedFields(shape, obj);
      assert FieldAccepted(obj, specs[k]);
    }
  }

  /**
   * Every shape needs both timestamps: the record's instant is `datefmt` of
   * `__REALTIME_TIMESTAMP` and its monotonic time the `u64` of
   * `__MONOTONIC_TIMESTAMP`.
   */
  lemma TimestampsRequired(shape: Shape, obj: JObject)
    ensures DecodeShape(shape, obj).Done? ==>
      && RealtimeKey in obj && DateFmt(obj[RealtimeKey]) == Done(DecodeShape(shape, obj).value.realtimeTimestamp)
      && MonotonicKey in obj && FromStr(U64Max, obj[MonotonicKey]) == Done(DecodeShape(shape, obj).value.monotonicTimestamp as nat)
  {
    var specs := Fields(shape);
    var n := |specs|;
    assert specs[n - 2] == RealtimeField && specs[n - 1] == MonotonicField;
    if DecodeShape(shape, obj).Done? {
      var vals := DecodedFields(shape, obj);
      assert FieldAccepted(obj, specs[n - 2]) && FieldAccepted(obj, specs[n - 1]);
    }
  }

  // ---------------------------------------------------------------- deserialize_fallback

  /**
   * An `Invalid` result tells its path: its `error` is empty exactly when the
   * line itself said `"_TRANSPORT": "Invalid"` and decoded on the first try.
   */
  lemma InvalidErrorTellsPath(line: Line)
    requires DeserializeFallback(line).Done? && DeserializeFallback(line).value.Invalid?
    ensures DeserializeFallback(line).value.error == "" <==> DecodeLog(line).Done?
  {
    if !DecodeLog(line).Done? {
      assert |Describe(DecodeLog(line).error)| > 0;
    }
  }

  /** A panic in a shape's decode can only come from `datefmt` on `__REALTIME_TIMESTAMP`. */
  lemma ShapePanicIsRealtime(shape: Shape, obj: JObject)
    requires DecodeShape(shape, obj).Panicked?
    ensures RealtimePanics(obj)
  {
    var specs := Fields(shape);
    assert DecodeFields(obj, specs).Panicked?;
    var i :| 0 <= i < |specs| && specs[i].key in obj && DecodeField(specs[i].kind, obj[specs[i].key]).Panicked?;
    assert specs[i] == RealtimeField;
  }

  /** A shape whose struct reads the realtime timestamp cannot decode when `datefmt` panics on it. */
  lemma PanickingRealtimeRejects(shape: Shape, obj: JObject)
    requires RealtimePanics(obj)
    ensures !DecodeShape(shape, obj).Done?
  {
    TimestampsRequired(shape, obj);
  }

  /**
   * The classifier as a whole. A line yields a record exactly when the tagged
   * shape or the loose shape accepts it; the record is the tagged one when
   * the tagged shape accepts, else an `Invalid` record whose `error` is the
   * first decode's message. A panic comes only from a realtime timestamp that
   * is not an `i64` numeral or lies outside chrono's range, and such a line
   * never yields a record.
   */
  lemma {:induction false} ClassificationMeaning(obj: JObject)
    ensures DeserializeFallback(Object(obj)).Done? <==> TaggedAccepts(obj) || LooseAccepts(obj)
    ensures TaggedAccepts(obj) ==>
      DeserializeFallback(Object(obj)) == DecodeShape(ShapeOfTag(obj[TransportKey].text).value, obj)
    ensures !TaggedAccepts(obj) && LooseAccepts(obj) ==>
      DeserializeFallback(Object(obj)).value.Invalid? && DeserializeFallback(Object(obj)).value.error != ""
    ensures DeserializeFallback(Object(obj)).Panicked? ==> RealtimePanics(obj)
    ensures RealtimePanics(obj) ==> !DeserializeFallback(Object(obj)).Done?
  {
    var line := Object(obj);
    DecodeInvalidMeaning(obj);
    if TransportKey in obj && obj[TransportKey].JString? && ShapeOfTag(obj[TransportKey].text).Some? {
      var shape := ShapeOfTag(obj[TransportKey].text).value;
      assert DecodeLog(line) == DecodeShape(shape, obj);
      if DecodeShape(shape, obj).Panicked? {
        ShapePanicIsRealtime(shape, obj);
      }
      if RealtimePanics(obj) {
        PanickingRealtimeRejects(shape, obj);
      }
    }
    if DecodeInvalid(line).Panicked? {
      ShapePanicIsRealtime(InvalidShape, obj);
    }
    if !TaggedAccepts(obj) && LooseAccepts(obj) {
      InvalidErrorTellsPath(line);
    }
  }

  /** A line serde_json cannot read as an object is a hard error. */
  lemma UnparsableIsHardError()
    ensures DeserializeFallback(Unparsable) == Failed(NotAnObject)
  {
  }

  /**
   * A present `PRIORITY` that is not a `u8` numeral defeats both decodes: the
   * line is a hard error (or a panic), never a record with priority 0.
   */
  lemma BadPriorityIsHardError(obj: JObject)
    requires PriorityKey in obj && !FromStr(U8Max, obj[PriorityKey]).Done?
    ensures !DeserializeFallback(Object(obj)).Done?
  {
    ClassificationMeaning(obj);
    if TaggedAccepts(obj) {
      PriorityRules(ShapeOfTag(obj[TransportKey].text).value, obj);
    }
  }

  /** A line without both timestamps never yields a record. */
  lemma TimestamplessIsHardError(obj: JObject)
    requires RealtimeKey !in obj || MonotonicKey !in obj
    ensures !DeserializeFallback(Object(obj)).Done?
  {
    ClassificationMeaning(obj);
    if TaggedAccepts(obj) {
      TimestampsRequired(ShapeOfTag(obj[TransportKey].text).value, obj);
    }
  }

  /**
   * `_TRANSPORT: "Invalid"` selects the `Invalid` variant on the first
   * decode, with an empty `error`.
   */
  lemma DirectInvalid(obj: JObject)
    requires TransportKey in obj && obj[TransportKey].JString? && obj[TransportKey].text == "Invalid"
    requires LooseAccepts(obj)
    ensures DeserializeFallback(Object(obj)).Done?
    ensures DeserializeFallback(Object(obj)).value.Invalid? && DeserializeFallback(Object(obj)).value.error == ""
  {
    assert TagName(InvalidShape) == obj[TransportKey].text;
    assert DecodeLog(Object(obj)) == DecodeInvalid(Object(obj));
    DecodeInvalidMeaning(obj);
  }

  /** The journal test line's realtime text decodes to 1491389822 s and 837330000 ns. */
  lemma SampleInstant(realtime: string)
    requires NumeralValue(realtime, true) == Some(1491389822667666)
    ensures DateFmt(JString(realtime, false)) == Done(Instant(1491389822, 837330000))
  {
    var micros := 1491389822667666;
    assert ParseInt(realtime, I64Min, I64Max) == Ok(micros);
    assert TruncDiv(micros, MicrosPerSecond) == 1491389822;
    assert micros % U32Modulus == 1083837330;
    assert 1083837330 % MicrosPerSecond == 837330;
  }

  /**
   * The record of the source's own journal test line (only its decoded keys
   * matter; every other key is ignored). The two timestamp texts are given by
   * the numbers they spell, 1491389822667666 and 71669967. The `as u32` in
   * `datefmt` makes the nanosecond part 837330000, not the 667666000 that the
   * realtime text's last six digits of microseconds carry.
   */
  lemma {:induction false} SampleJournalRecord(obj: JObject, realtime: string, monotonic: string)
    requires TransportKey in obj && obj[TransportKey] == JString("journal", false)
    requires PidKey in obj && obj[PidKey] == JString("1", false)
    requires PriorityKey in obj && obj[PriorityKey] == JString("6", false)
    requires SystemdUnitKey in obj && obj[SystemdUnitKey] == JString("docker.service", false)
    requires MessageKey in obj && obj[MessageKey] == JString("Started Docker Application Container Engine.", false)
    requires NumeralValue(realtime, true) == Some(1491389822667666)
    requires RealtimeKey in obj && obj[RealtimeKey] == JString(realtime, false)
    requires NumeralValue(monotonic, false) == Some(71669967)
    requires MonotonicKey in obj && obj[MonotonicKey] == JString(monotonic, false)
    ensures DeserializeFallback(Object(obj)) == Done(Journal(1, 6, "docker.service",
      "Started Docker Application Container Engine.", Instant(1491389822, 837330000), 71669967))
    ensures 1491389822667666 % MicrosPerSecond * 1000 == 667666000
  {
    SampleJournalShape(obj, realtime, monotonic);
    assert TagName(JournalShape) == obj[TransportKey].text;
    assert DecodeLog(Object(obj)) == DecodeShape(JournalShape, obj);
  }

  /** The journal struct's own decode of the journal test line. */
  lemma SampleJournalShape(obj: JObject, realtime: string, monotonic: string)
    requires PidKey in obj && obj[PidKey] == JString("1", false)
    requires PriorityKey in obj && obj[PriorityKey] == JString("6", false)
    requires SystemdUnitKey in obj && obj[SystemdUnitKey] == JString("docker.service", false)
    requires MessageKey in obj && obj[MessageKey] == JString("Started Docker Application Container Engine.", false)
    requires NumeralValue(realtime, true) == Some(1491389822667666)
    requires RealtimeKey in obj && obj[RealtimeKey] == JString(realtime, false)
    requires NumeralValue(monotonic, false) == Some(71669967)
    requires MonotonicKey in obj && obj[MonotonicKey] == JString(monotonic, false)
    ensures DecodeShape(JournalShape, obj) == Done(Journal(1, 6, "docker.service",
      "Started Docker Application Container Engine.", Instant(1491389822, 837330000), 71669967))
  {
    var fs := Fields(JournalShape);
    SampleInteger(obj, PidField, "1", 1);
    SampleInteger(obj, DefaultedPriorityField, "6", 6);
    SampleInteger(obj, MonotonicField, monotonic, 71669967);
    SampleInstant(realtime);
    var vals := [Num(1), Num(6), Str("docker.service"), Str("Started Docker Application Container Engine."),
                 Time(Instant(1491389822, 837330000)), Num(71669967)];
    assert forall i :: 0 <= i < |fs| ==> FieldAccepted(obj, fs[i]) && vals[i] == FieldResult(obj, fs[i]);
    DecodeFrom(JournalShape, obj, vals);
  }

  /**
   * The source's byte-array test line: no `_TRANSPORT`, and a `MESSAGE` that
   * is an array, not a string. The tagged decode fails for the missing tag and
   * the `Invalid` shape, which has no message field, takes the line.
   */
  lemma {:induction false} SampleByteArrayRecord(obj: JObject, realtime: string, monotonic: string)
    requires TransportKey !in obj
    requires IdentifierKey in obj && obj[IdentifierKey] == JString("systemd", false)
    requires PriorityKey in obj && obj[PriorityKey] == JString("6", false)
    requires MessageKey in obj && obj[MessageKey] == JOther
    requires NumeralValue(realtime, true) == Some(1491389822667666)
    requires RealtimeKey in obj && obj[RealtimeKey] == JString(realtime, false)
    requires NumeralValue(monotonic, false) == Some(71669967)
    requires MonotonicKey in obj && obj[MonotonicKey] == JString(monotonic, false)
    ensures DeserializeFallback(Object(obj)) == Done(Invalid("systemd", 6, Describe(MissingField(TransportKey)),
      Instant(1491389822, 837330000), 71669967))
  {
    SampleInteger(obj, DefaultedPriorityField, "6", 6);
    SampleInteger(obj, MonotonicField, monotonic, 71669967);
    SampleInstant(realtime);
    assert FieldResult(obj, RealtimeField) == Time(Instant(1491389822, 837330000));
    assert FieldResult(obj, IdentifierField) == Str("systemd");
    assert DecodeLog(Object(obj)) == Failed(MissingField(TransportKey));
    DecodeInvalidMeaning(obj);
  }

  /** An integer field whose text is the numeral of `n` decodes to `n`. */
  lemma SampleInteger(obj: JObject, spec: FieldSpec, text: string, n: nat)
    requires spec.kind.Integer? && n <= spec.kind.max
    requires NumeralValue(text, false) == Some(n)
    requires spec.key in obj && obj[spec.key] == JString(text, false)
    ensures FieldAccepted(obj, spec) && FieldResult(obj, spec) == Num(n)
  {
  }
}
