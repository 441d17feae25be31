/**
 * The record classifier of log-stat (src/model.rs): one journald JSON line is
 * decoded into one of seven record shapes, selected by the `_TRANSPORT` tag,
 * with a looser `Invalid` shape as the fallback when the tagged decode fails.
 *
 * JSON lexing is abstract: a line is either something serde_json cannot read
 * as a JSON object, or an object seen as a map from key to value.
 */
module Model {

  datatype Option<+T> = None | Some(value: T)

  datatype Result<+T, +E> = Ok(value: T) | Err(error: E)

  /**
   * What a decode ends in: a value, a serde error (`Err` in the source), or a
   * panic, which unwinds through the whole program.
   */
  datatype Outcome<+T> = Done(value: T) | Failed(error: DecodeError) | Panicked
  {
    predicate IsFailure() { !Done? }

    function PropagateFailure<U>(): Outcome<U>
      requires !Done?
    {
      if Failed? then Failed(error) else Panicked
    }

    function Extract(): T
      requires Done?
    {
      value
    }
  }

  // ---------------------------------------------------------------- JSON lines

  /**
   * A JSON value: a string, given by its text after unescaping and by whether
   * its JSON spelling used an escape sequence, or any other JSON value.
   * serde can lend out a `&str` only for a string written without escapes.
   */
  datatype JValue = JString(text: string, escaped: bool) | JOther

  type JObject = map<string, JValue>

  /** One input line: not readable as a JSON object, or an object. */
  datatype Line = Unparsable | Object(fields: JObject)

  // ---------------------------------------------------------------- integers

  type U8 = n: nat | n <= 0xFF
  type U16 = n: nat | n <= 0xFFFF
  type U64 = n: nat | n <= 0xFFFF_FFFF_FFFF_FFFF

  const U8Max: nat := 0xFF
  const U16Max: nat := 0xFFFF
  const U64Max: nat := 0xFFFF_FFFF_FFFF_FFFF
  const I64Min: int := -0x8000_0000_0000_0000
  const I64Max: int := 0x7FFF_FFFF_FFFF_FFFF

  /** Rust's `ParseIntError` kinds. */
  datatype IntErrorKind = Empty | InvalidDigit | Overflow | Underflow

  predicate IsDigit(c: char) { '0' <= c <= '9' }

  function DigitValue(c: char): nat
    requires IsDigit(c)
  {
    c as int - '0' as int
  }

  predicate AllDigits(s: string)
  {
    forall i :: 0 <= i < |s| ==> IsDigit(s[i])
  }

  function Pow10(n: nat): (p: nat)
    ensures p >= 1
  {
    if n == 0 then 1 else 10 * Pow10(n - 1)
  }

  /** The number a run of decimal digits denotes: each digit times its place value. */
  function DigitsValue(s: string): nat
    requires AllDigits(s)
  {
    if s == [] then 0 else DigitValue(s[0]) * Pow10(|s| - 1) + DigitsValue(s[1..])
  }

  /**
   * What `s` denotes as a decimal numeral: an optional `+` (or `-`, when the
   * target type is signed) followed by at least one digit.
   */
  function NumeralValue(s: string, signed: bool): Option<int>
  {
    if |s| > 1 && s[0] == '+' && AllDigits(s[1..]) then Some(DigitsValue(s[1..]))
    else if |s| > 1 && s[0] == '-' && signed && AllDigits(s[1..]) then Some(0 - DigitsValue(s[1..]))
    else if |s| > 0 && AllDigits(s) then Some(DigitsValue(s))
    else None
  }

  /** `acc` followed by the digits `ds`, read as a positive or a negative number. */
  function Extended(acc: int, ds: string, positive: bool): int
    requires AllDigits(ds)
  {
    if positive then acc * Pow10(|ds|) + DigitsValue(ds) else acc * Pow10(|ds|) - DigitsValue(ds)
  }

  lemma ShiftDigit(acc: int, ds: string, positive: bool)
    requires |ds| > 0 && AllDigits(ds)
    ensures AllDigits(ds[1..])
    ensures Extended(acc, ds, positive)
         == Extended(if positive then acc * 10 + DigitValue(ds[0]) else acc * 10 - DigitValue(ds[0]), ds[1..], positive)
  {
    var p := Pow10(|ds| - 1);
    var d := DigitValue(ds[0]);
    assert Pow10(|ds|) == 10 * p;
    assert acc * (10 * p) + d * p == (acc * 10 + d) * p;
    assert acc * (10 * p) - d * p == (acc * 10 - d) * p;
  }

  lemma MulAtLeast(a: nat, p: nat)
    requires p >= 1
    ensures a * p >= a
  {
  }

  /** More digits move a number away from zero: up when positive, down when negative. */
  lemma ExtendedMonotone(acc: int, ds: string, positive: bool)
    requires AllDigits(ds)
    requires positive ==> acc >= 0
    requires !positive ==> acc <= 0
    ensures positive ==> Extended(acc, ds, positive) >= acc
    ensures !positive ==> Extended(acc, ds, positive) <= acc
  {
    if positive {
      MulAtLeast(acc, Pow10(|ds|));
    } else {
      MulAtLeast(-acc, Pow10(|ds|));
      assert acc * Pow10(|ds|) == -((-acc) * Pow10(|ds|));
    }
  }

  /** A run that starts with a digit is all digits exactly when its tail is. */
  lemma AllDigitsTail(ds: string)
    requires |ds| > 0 && IsDigit(ds[0])
    ensures AllDigits(ds) <==> AllDigits(ds[1..])
  {
    if AllDigits(ds[1..]) {
      forall i | 0 <= i < |ds| ensures IsDigit(ds[i]) {
        if i > 0 { assert ds[i] == ds[1..][i - 1]; }
      }
    }
  }

  /**
   * The digit loop of Rust's `from_str_radix` in base 10: each step multiplies
   * by ten and adds (or, for a negative number, subtracts) the digit, failing
   * at the first character that is not a digit and at the first prefix that
   * leaves `lo..hi`.
   */
  function Accumulate(ds: string, acc: int, positive: bool, lo: int, hi: int): Result<int, IntErrorKind>
    decreases |ds|
  {
    if ds == [] then Ok(acc)
    else if !IsDigit(ds[0]) then Err(InvalidDigit)
    else
      var next := if positive then acc * 10 + DigitValue(ds[0]) else acc * 10 - DigitValue(ds[0]);
      if positive && next > hi then Err(Overflow)
      else if !positive && next < lo then Err(Underflow)
      else Accumulate(ds[1..], next, positive, lo, hi)
  }

  /** The digit loop accepts exactly the digit runs whose value, read after `acc`, stays in `lo..hi`. */
  lemma {:induction false} AccumulateMeaning(ds: string, acc: int, positive: bool, lo: int, hi: int)
    requires lo <= acc <= hi
    requires positive ==> acc >= 0
    requires !positive ==> acc <= 0
    ensures Accumulate(ds, acc, positive, lo, hi).Ok? <==> AllDigits(ds) && lo <= Extended(acc, ds, positive) <= hi
    ensures Accumulate(ds, acc, positive, lo, hi).Ok? ==> Accumulate(ds, acc, positive, lo, hi).value == Extended(acc, ds, positive)
    decreases |ds|
  {
    if ds != [] && IsDigit(ds[0]) {
      var next := if positive then acc * 10 + DigitValue(ds[0]) else acc * 10 - DigitValue(ds[0]);
      AllDigitsTail(ds);
      if AllDigits(ds) {
        ShiftDigit(acc, ds, positive);
        ExtendedMonotone(next, ds[1..], positive);
      }
      if !(positive && next > hi) && !(!positive && next < lo) {
        AccumulateMeaning(ds[1..], next, positive, lo, hi);
      }
    }
  }

  /**
   * Rust's `T::from_str` for an integer type whose values are `lo..hi`: an
   * optional sign (`-` only for a signed type), then the digit loop.
   */
  function ParseInt(s: string, lo: int, hi: int): (r: Result<int, IntErrorKind>)
    requires lo <= 0 <= hi
    ensures r.Ok? <==> NumeralValue(s, lo < 0).Some? && lo <= NumeralValue(s, lo < 0).value <= hi
    ensures r.Ok? ==> r.value == NumeralValue(s, lo < 0).value
  {
    if |s| == 0 then Err(Empty)
    else
      var positive := !(s[0] == '-' && lo < 0);
      var ds := if s[0] == '+' || !positive then s[1..] else s;
      if |ds| == 0 then Err(Empty)
      else
        AccumulateMeaning(ds, 0, positive, lo, hi);
        assert AllDigits(ds) ==> Extended(0, ds, positive) == (if positive then DigitsValue(ds) else 0 - DigitsValue(ds));
        Accumulate(ds, 0, positive, lo, hi)
  }

  // ---------------------------------------------------------------- errors

  /** The serde_json errors the classifier can meet. */
  datatype DecodeError =
    | NotAnObject
    | MissingField(field: string)
    | UnknownVariant(tag: string)
    | InvalidType(expected: string)
    | InvalidInteger(kind: IntErrorKind)

  function IntErrorText(kind: IntErrorKind): string
  {
    match kind
    case Empty => "cannot parse integer from empty string"
    case InvalidDigit => "invalid digit found in string"
    case Overflow => "number too large to fit in target type"
    case Underflow => "number too small to fit in target type"
  }

  /** `e.to_string()`: the message of a decode error, never empty. */
  function Describe(e: DecodeError): (text: string)
    ensures |text| > 0
  {
    match e
    case NotAnObject => "expected a JSON object"
    case MissingField(f) => "missing field `" + f + "`"
    case UnknownVariant(t) =>
      "unknown variant `" + t + "`, expected one of `journal`, `kernel`, `stdout`, `audit`, `syslog`, `driver`, `Invalid`"
    case InvalidType(expected) => "invalid type, expected " + expected
    case InvalidInteger(kind) => IntErrorText(kind)
  }

  // ---------------------------------------------------------------- field coercions

  /**
   * `from_str`: the value must be a JSON string (escaped or not), and its text
   * must parse as an unsigned integer no larger than `max`.
   */
  function FromStr(max: nat, v: JValue): (r: Outcome<nat>)
    ensures r.Done? <==> v.JString? && NumeralValue(v.text, false).Some? && NumeralValue(v.text, false).value <= max
    ensures r.Done? ==> NumeralValue(v.text, false) == Some(r.value) && r.value <= max
    ensures !r.Panicked?
  {
    match v
    case JOther => Failed(InvalidType("a string"))
    case JString(text, _) =>
      match ParseInt(text, 0, max)
      case Ok(n) => Done(n)
      case Err(kind) => Failed(InvalidInteger(kind))
  }

  const MicrosPerSecond: nat := 1_000_000
  const U32Modulus: nat := 0x1_0000_0000

  /**
   * The range of chrono's `NaiveDateTime`: from -262144-01-01T00:00:00 to
   * +262143-12-31T23:59:59, in seconds since the Unix epoch.
   */
  const MinSeconds: int := -8_334_632_851_200
  const MaxSeconds: int := 8_210_298_412_799

  /** A UTC instant: seconds since the Unix epoch and a nanosecond part. */
  datatype Instant = Instant(seconds: int, nanos: nat)

  /** Rust's `/` on `i64`: the quotient rounded toward zero. */
  function TruncDiv(a: int, d: int): (q: int)
    requires d > 0
    ensures a >= 0 ==> q * d <= a < q * d + d
    ensures a < 0 ==> q * d - d < a <= q * d
  {
    if a >= 0 then a / d else -((-a) / d)
  }

  /**
   * A timestamp text that `datefmt` turns into an instant: a decimal numeral
   * whose microseconds, rounded toward zero to seconds, land in chrono's range.
   * Such a number always fits in an `i64`.
   */
  predicate Representable(text: string)
  {
    && NumeralValue(text, true).Some?
    && (MinSeconds - 1) * MicrosPerSecond < NumeralValue(text, true).value < (MaxSeconds + 1) * MicrosPerSecond
  }

  /**
   * `datefmt`: a JSON string of microseconds since the epoch becomes an
   * instant of `s / 1_000_000` seconds and `((s as u32) % 1_000_000) * 1000`
   * nanoseconds; the `as u32` keeps the low 32 bits before the remainder.
   * A text that is not an `i64` panics in `unwrap`, and an instant outside
   * chrono's range panics in `NaiveDateTime::from_timestamp`.
   */
  function DateFmt(v: JValue): (r: Outcome<Instant>)
    ensures r.Failed? <==> v.JOther?
    ensures v.JString? ==> (r.Done? <==> Representable(v.text))
    ensures r.Done? ==>
      && v.JString? && NumeralValue(v.text, true).Some?
      && var micros := NumeralValue(v.text, true).value;
      && I64Min <= micros <= I64Max
      && MinSeconds <= r.value.seconds <= MaxSeconds
      && (micros >= 0 ==> r.value.seconds * MicrosPerSecond <= micros < (r.value.seconds + 1) * MicrosPerSecond)
      && (micros < 0 ==> (r.value.seconds - 1) * MicrosPerSecond < micros <= r.value.seconds * MicrosPerSecond)
      && r.value.nanos == (micros % U32Modulus) % MicrosPerSecond * 1000
      && r.value.nanos <= 999_999_000
  {
    match v
    case JOther => Failed(InvalidType("a string"))
    case JString(text, _) =>
      match ParseInt(text, I64Min, I64Max)
      case Err(_) => Panicked
      case Ok(micros) =>
        var seconds := TruncDiv(micros, MicrosPerSecond);
        var nanos := (micros % U32Modulus) % MicrosPerSecond * 1000;
        if MinSeconds <= seconds <= MaxSeconds then Done(Instant(seconds, nanos)) else Panicked
  }

  // ---------------------------------------------------------------- field rules

  /** How a field's JSON value is read. */
  datatype FieldKind =
    | Integer(max: nat)   // `deserialize_with = "from_str"` into an unsigned type
    | BorrowedStr         // a `&'a str` field
    | Timestamp           // `deserialize_with = "datefmt"`

  datatype FieldValue = Num(n: nat) | Str(s: string) | Time(t: Instant)

  /** What a missing field becomes: an error, or a default value. */
  datatype Absent = Required | DefaultsTo(value: FieldValue)

  /** One struct field: the JSON key it is renamed from, how it is read, and its default. */
  datatype FieldSpec = FieldSpec(key: string, kind: FieldKind, absent: Absent)

  predicate HasKind(v: FieldValue, kind: FieldKind)
  {
    match kind
    case Integer(max) => v.Num? && v.n <= max
    case BorrowedStr => v.Str?
    case Timestamp => v.Time?
  }

  predicate WellFormed(spec: FieldSpec)
  {
    spec.absent.DefaultsTo? ==> HasKind(spec.absent.value, spec.kind)
  }

  predicate Conforms(vals: seq<FieldValue>, specs: seq<FieldSpec>)
  {
    |vals| == |specs| && forall i :: 0 <= i < |specs| ==> HasKind(vals[i], specs[i].kind)
  }

  /** Reads one present field's value. */
  function DecodeField(kind: FieldKind, v: JValue): (r: Outcome<FieldValue>)
    ensures r.Done? ==> HasKind(r.value, kind)
    ensures r.Panicked? ==> kind.Timestamp?
  {
    match kind
    case Integer(max) =>
      var n :- FromStr(max, v);
      Done(Num(n))
    case BorrowedStr =>
      if v.JString? && !v.escaped then Done(Str(v.text)) else Failed(InvalidType("a borrowed string"))
    case Timestamp =>
      var t :- DateFmt(v);
      Done(Time(t))
  }

  /** A field is accepted when it is present with a readable value, or absent with a default. */
  predicate FieldAccepted(obj: JObject, spec: FieldSpec)
  {
    if spec.key in obj then DecodeField(spec.kind, obj[spec.key]).Done? else spec.absent.DefaultsTo?
  }

  /** The value an accepted field takes. */
  function FieldResult(obj: JObject, spec: FieldSpec): (v: FieldValue)
    requires FieldAccepted(obj, spec)
    ensures WellFormed(spec) ==> HasKind(v, spec.kind)
  {
    if spec.key in obj then DecodeField(spec.kind, obj[spec.key]).value else spec.absent.value
  }

  predicate Accepts(obj: JObject, specs: seq<FieldSpec>)
  {
    forall i :: 0 <= i < |specs| ==> FieldAccepted(obj, specs[i])
  }

  /**
   * The first pass of a derived `Deserialize` for a struct: every present
   * field is read (here in declaration order), and the first error or panic
   * ends the decode. Keys that name no field are ignored.
   */
  function DecodePresent(obj: JObject, specs: seq<FieldSpec>): (r: Outcome<seq<Option<FieldValue>>>)
    ensures r.Done? <==>
      forall i :: 0 <= i < |specs| && specs[i].key in obj ==> DecodeField(specs[i].kind, obj[specs[i].key]).Done?
    ensures r.Done? ==> |r.value| == |specs|
    ensures r.Done? ==> forall i :: 0 <= i < |specs| ==>
      r.value[i] == (if specs[i].key in obj then Some(DecodeField(specs[i].kind, obj[specs[i].key]).value) else None)
    ensures r.Panicked? ==>
      exists i :: 0 <= i < |specs| && specs[i].key in obj && DecodeField(specs[i].kind, obj[specs[i].key]).Panicked?
  {
    if specs == [] then Done([])
    else
      var spec := specs[0];
      var head :- if spec.key in obj then
                    (var v :- DecodeField(spec.kind, obj[spec.key]); Done(Some(v)))
                  else Done(None);
      var tail :- DecodePresent(obj, specs[1..]);
      assert forall i :: 1 <= i < |specs| ==> specs[i] == specs[1..][i - 1];
      Done([head] + tail)
  }

  /** The second pass: a missing field takes its default, or is the first `missing field` error. */
  function FillDefaults(specs: seq<FieldSpec>, present: seq<Option<FieldValue>>): (r: Outcome<seq<FieldValue>>)
    requires |present| == |specs|
    ensures r.Done? <==> forall i :: 0 <= i < |specs| ==> present[i].Some? || specs[i].absent.DefaultsTo?
    ensures r.Done? ==> |r.value| == |specs|
    ensures r.Done? ==> forall i :: 0 <= i < |specs| ==>
      r.value[i] == (if present[i].Some? then present[i].value else specs[i].absent.value)
    ensures !r.Panicked?
  {
    if specs == [] then Done([])
    else
      var head :- match present[0]
                  case Some(v) => Done(v)
                  case None => if specs[0].absent.DefaultsTo? then Done(specs[0].absent.value)
                               else Failed(MissingField(specs[0].key));
      var tail :- FillDefaults(specs[1..], present[1..]);
      assert forall i :: 1 <= i < |specs| ==> specs[i] == specs[1..][i - 1] && present[i] == present[1..][i - 1];
      Done([head] + tail)
  }

  /** A derived struct `Deserialize` over the fields `specs`. */
  function DecodeFields(obj: JObject, specs: seq<FieldSpec>): (r: Outcome<seq<FieldValue>>)
    requires forall i :: 0 <= i < |specs| ==> WellFormed(specs[i])
    ensures r.Done? <==> Accepts(obj, specs)
    ensures r.Done? ==> Conforms(r.value, specs)
    ensures r.Done? ==> forall i :: 0 <= i < |specs| ==> FieldAccepted(obj, specs[i]) && r.value[i] == FieldResult(obj, specs[i])
    ensures r.Panicked? ==>
      exists i :: 0 <= i < |specs| && specs[i].key in obj && DecodeField(specs[i].kind, obj[specs[i].key]).Panicked?
  {
    var present :- DecodePresent(obj, specs);
    var r := FillDefaults(specs, present);
    assert r.Done? ==> forall i :: 0 <= i < |specs| ==>
      FieldAccepted(obj, specs[i]) && r.value[i] == FieldResult(obj, specs[i]) && HasKind(r.value[i], specs[i].kind);
    r
  }

  // ---------------------------------------------------------------- record shapes

  const TransportKey := "_TRANSPORT"
  const PidKey := "_PID"
  const PriorityKey := "PRIORITY"
  const SystemdUnitKey := "_SYSTEMD_UNIT"
  const IdentifierKey := "SYSLOG_IDENTIFIER"
  const MessageKey := "MESSAGE"
  const RealtimeKey := "__REALTIME_TIMESTAMP"
  const MonotonicKey := "__MONOTONIC_TIMESTAMP"

  /** `default_systemd_unit` and `default_syslog_identity`. */
  const DefaultSystemdUnit := "unknown"
  const DefaultSyslogIdentity := "unknown"

  const PidField := FieldSpec(PidKey, Integer(U16Max), Required)
  const DefaultedPriorityField := FieldSpec(PriorityKey, Integer(U8Max), DefaultsTo(Num(0)))
  const RequiredPriorityField := FieldSpec(PriorityKey, Integer(U8Max), Required)
  const SystemdUnitField := FieldSpec(SystemdUnitKey, BorrowedStr, DefaultsTo(Str(DefaultSystemdUnit)))
  const IdentifierField := FieldSpec(IdentifierKey, BorrowedStr, DefaultsTo(Str(DefaultSyslogIdentity)))
  const MessageField := FieldSpec(MessageKey, BorrowedStr, Required)
  const RealtimeField := FieldSpec(RealtimeKey, Timestamp, Required)
  const MonotonicField := FieldSpec(MonotonicKey, Integer(U64Max), Required)

  /** The seven record structs, one per variant of `Log`. */
  datatype Shape = JournalShape | KernelShape | StdoutShape | AuditShape | SyslogShape | DriverShape | InvalidShape

  /** The `_TRANSPORT` value naming each variant: six renamed, `Invalid` under its own name. */
  function TagName(shape: Shape): string
  {
    match shape
    case JournalShape => "journal"
    case KernelShape => "kernel"
    case StdoutShape => "stdout"
    case AuditShape => "audit"
    case SyslogShape => "syslog"
    case DriverShape => "driver"
    case InvalidShape => "Invalid"
  }

  /** The variant a `_TRANSPORT` value selects: exactly the one it names, if any. */
  function ShapeOfTag(tag: string): (r: Option<Shape>)
    ensures forall shape :: r == Some(shape) <==> TagName(shape) == tag
  {
    if tag == "journal" then Some(JournalShape)
    else if tag == "kernel" then Some(KernelShape)
    else if tag == "stdout" then Some(StdoutShape)
    else if tag == "audit" then Some(AuditShape)
    else if tag == "syslog" then Some(SyslogShape)
    else if tag == "driver" then Some(DriverShape)
    else if tag == "Invalid" then Some(InvalidShape)
    else None
  }

  /** The fields of each struct, in declaration order. `Invalid.error` is never read from input. */
  function Fields(shape: Shape): (specs: seq<FieldSpec>)
    ensures forall i :: 0 <= i < |specs| ==> WellFormed(specs[i])
    ensures forall i :: 0 <= i < |specs| && specs[i].kind.Timestamp? ==> specs[i] == RealtimeField
  {
    match shape
    case JournalShape => [PidField, DefaultedPriorityField, SystemdUnitField, MessageField, RealtimeField, MonotonicField]
    case KernelShape => [IdentifierField, RequiredPriorityField, MessageField, RealtimeField, MonotonicField]
    case StdoutShape => [IdentifierField, SystemdUnitField, RequiredPriorityField, MessageField, RealtimeField, MonotonicField]
    case AuditShape => [IdentifierField, DefaultedPriorityField, MessageField, RealtimeField, MonotonicField]
    case SyslogShape => [IdentifierField, RequiredPriorityField, MessageField, RealtimeField, MonotonicField]
    case DriverShape => [IdentifierField, RequiredPriorityField, MessageField, RealtimeField, MonotonicField]
    case InvalidShape => [IdentifierField, DefaultedPriorityField, RealtimeField, MonotonicField]
  }

  /** The `Log` enum: one variant per record struct. */
  datatype Log =
    | Journal(pid: U16, priority: U8, systemdUnit: string, message: string,
              realtimeTimestamp: Instant, monotonicTimestamp: U64)
    | Kernel(identifier: string, priority: U8, message: string,
             realtimeTimestamp: Instant, monotonicTimestamp: U64)
    | Stdout(identifier: string, systemdUnit: string, priority: U8, message: string,
             realtimeTimestamp: Instant, monotonicTimestamp: U64)
    | Audit(identifier: string, priority: U8, message: string,
            realtimeTimestamp: Instant, monotonicTimestamp: U64)
    | Syslog(identifier: string, priority: U8, message: string,
             realtimeTimestamp: Instant, monotonicTimestamp: U64)
    | Driver(identifier: string, priority: U8, message: string,
             realtimeTimestamp: Instant, monotonicTimestamp: U64)
    | Invalid(identifier: string, priority: U8, error: string,
              realtimeTimestamp: Instant, monotonicTimestamp: U64)

  /** The shape a record has. */
  function ShapeOf(log: Log): Shape
  {
    match log
    case Journal(_, _, _, _, _, _) => JournalShape
    case Kernel(_, _, _, _, _) => KernelShape
    case Stdout(_, _, _, _, _, _) => StdoutShape
    case Audit(_, _, _, _, _) => AuditShape
    case Syslog(_, _, _, _, _) => SyslogShape
    case Driver(_, _, _, _, _) => DriverShape
    case Invalid(_, _, _, _, _) => InvalidShape
  }

  /** Assembles a record from its decoded fields; `Invalid.error` starts as the empty `String`. */
  function Build(shape: Shape, vals: seq<FieldValue>): (log: Log)
    requires Conforms(vals, Fields(shape))
    ensures ShapeOf(log) == shape
    ensures log.Invalid? ==> log.error == ""
  {
    match shape
    case JournalShape => Journal(vals[0].n, vals[1].n, vals[2].s, vals[3].s, vals[4].t, vals[5].n)
    case KernelShape => Kernel(vals[0].s, vals[1].n, vals[2].s, vals[3].t, vals[4].n)
    case StdoutShape => Stdout(vals[0].s, vals[1].s, vals[2].n, vals[3].s, vals[4].t, vals[5].n)
    case AuditShape => Audit(vals[0].s, vals[1].n, vals[2].s, vals[3].t, vals[4].n)
    case SyslogShape => Syslog(vals[0].s, vals[1].n, vals[2].s, vals[3].t, vals[4].n)
    case DriverShape => Driver(vals[0].s, vals[1].n, vals[2].s, vals[3].t, vals[4].n)
    case InvalidShape => Invalid(vals[0].s, vals[1].n, "", vals[2].t, vals[3].n)
  }

  /** Decodes one record struct from the fields of an object. */
  function DecodeShape(shape: Shape, obj: JObject): (r: Outcome<Log>)
    ensures r.Done? <==> Accepts(obj, Fields(shape))
    ensures r.Done? ==> ShapeOf(r.value) == shape
  {
    var vals :- DecodeFields(obj, Fields(shape));
    Done(Build(shape, vals))
  }

  /**
   * `serde_json::from_str::<Log>`: the internally tagged decode. The
   * `_TRANSPORT` value must be a string naming a variant; the variant's struct
   * is then decoded from the object (no struct has a `_TRANSPORT` field, so
   * the tag entry is ignored there).
   */
  function DecodeLog(line: Line): (r: Outcome<Log>)
    ensures line.Unparsable? ==> r == Failed(NotAnObject)
    ensures line.Object? && TransportKey !in line.fields ==> r == Failed(MissingField(TransportKey))
    ensures r.Done? ==>
      && line.Object? && TransportKey in line.fields && line.fields[TransportKey].JString?
      && TagName(ShapeOf(r.value)) == line.fields[TransportKey].text
    ensures r.Panicked? ==>
      && line.Object? && TransportKey in line.fields && line.fields[TransportKey].JString?
      && ShapeOfTag(line.fields[TransportKey].text).Some?
      && DecodeShape(ShapeOfTag(line.fields[TransportKey].text).value, line.fields).Panicked?
  {
    match line
    case Unparsable => Failed(NotAnObject)
    case Object(obj) =>
      if TransportKey !in obj then Failed(MissingField(TransportKey))
      else
        match obj[TransportKey]
        case JOther => Failed(InvalidType("variant identifier"))
        case JString(tag, _) =>
          match ShapeOfTag(tag)
          case None => Failed(UnknownVariant(tag))
          case Some(shape) => DecodeShape(shape, obj)
  }

  /** `serde_json::from_str::<Invalid>`: the looser decode, which ignores the tag. */
  function DecodeInvalid(line: Line): (r: Outcome<Log>)
    ensures r.Done? ==> r.value.Invalid? && r.value.error == ""
  {
    match line
    case Unparsable => Failed(NotAnObject)
    case Object(obj) => DecodeShape(InvalidShape, obj)
  }

  /**
   * `deserialize_fallback`: the tagged decode's record if it succeeds;
   * otherwise the `Invalid` record carrying the first error's text; otherwise
   * the second decode's error. A panic in either decode is a panic.
   */
  function DeserializeFallback(line: Line): (r: Outcome<Log>)
    ensures DecodeLog(line).Done? ==> r == DecodeLog(line)
    ensures DecodeLog(line).Failed? && DecodeInvalid(line).Done? ==>
      r == Done(DecodeInvalid(line).value.(error := Describe(DecodeLog(line).error)))
    ensures DecodeLog(line).Failed? && DecodeInvalid(line).Failed? ==> r == Failed(DecodeInvalid(line).error)
    ensures r.Panicked? <==> DecodeLog(line).Panicked? || (DecodeLog(line).Failed? && DecodeInvalid(line).Panicked?)
  {
    match DecodeLog(line)
    case Done(log) => Done(log)
    case Panicked => Panicked
    case Failed(e) =>
      var p :- DecodeInvalid(line);
      Done(p.(error := Describe(e)))
  }
}
