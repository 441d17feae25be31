/**
 * The aggregator: `count` classifies the lines of a journal dump one by one
 * and folds each record into a report of line counts, message byte lengths,
 * a per-facility histogram and per-unit statistics.
 */
module LogStat {
  import opened Model
  import opened MapSums

  // ---------------------------------------------------------------- report data

  /** Statistics of one systemd unit (the never-written `keywords` map is not modelled). */
  datatype ServiceCount = ServiceCount(line: nat, messageLength: nat, priorities: map<U8, nat>)

  /** Statistics of the whole dump. */
  datatype LogTotalCount = LogTotalCount(line: nat, messageLength: nat, facility: map<string, nat>)

  datatype LogReport = LogReport(total: LogTotalCount, service: map<string, ServiceCount>)

  /** `ServiceCount::default()`. */
  const EmptyService := ServiceCount(0, 0, map[])

  /** The report `count` starts from: every counter zero, every map empty. */
  const EmptyReport := LogReport(LogTotalCount(0, 0, map[]), map[])

  // ---------------------------------------------------------------- per-record facts

  /** The number of bytes UTF-8 spends on one Unicode scalar value. */
  function CharBytes(c: char): (n: nat)
    ensures 1 <= n <= 4
  {
    if c as int < 0x80 then 1
    else if c as int < 0x800 then 2
    else if c as int < 0x1_0000 then 3
    else 4
  }

  /** `str::len`: the length of a string's UTF-8 encoding, in bytes. */
  function Utf8Length(s: string): (n: nat)
    ensures |s| <= n <= 4 * |s|
  {
    if s == [] then 0 else Utf8Length(s[..|s| - 1]) + CharBytes(s[|s| - 1])
  }

  /** The facility bucket a record is counted in. */
  function FacilityName(log: Log): string
  {
    match log
    case Kernel(_, _, _, _, _) => "kernel"
    case Journal(_, _, _, _, _, _) => "journal"
    case Syslog(_, _, _, _, _) => "syslog"
    case Stdout(_, _, _, _, _, _) => "stdout"
    case Audit(_, _, _, _, _) => "audit"
    case Driver(_, _, _, _, _) => "driver"
    case Invalid(_, _, _, _, _) => "invalid"
  }

  /** The message bytes a record adds to the total: an `Invalid` record has no message. */
  function MessageBytes(log: Log): nat
  {
    if log.Invalid? then 0 else Utf8Length(log.message)
  }

  /** The unit a record is counted under: only journal and stdout records name one. */
  function ServiceUnit(log: Log): Option<string>
  {
    match log
    case Journal(_, _, unit, _, _, _) => Some(unit)
    case Stdout(_, unit, _, _, _, _) => Some(unit)
    case _ => None
  }

  // ---------------------------------------------------------------- the fold, as functions

  /** The unit's statistics, created empty on first use (`entry(..).or_default()`). */
  function ServiceOf(service: map<string, ServiceCount>, unit: string): ServiceCount
  {
    if unit in service then service[unit] else EmptyService
  }

  /** A unit's statistics after one more record with priority `priority` and `bytes` message bytes. */
  function Served(s: ServiceCount, priority: U8, bytes: nat): ServiceCount
  {
    ServiceCount(s.line + 1, s.messageLength + bytes, Increment(s.priorities, priority))
  }

  /**
   * One record folded into a report: one more line, its message bytes, one
   * more in its facility's bucket; a journal or stdout record also updates
   * the entry of its unit, and every other unit's entry stays as it was.
   */
  function Tally(r: LogReport, log: Log): (t: LogReport)
    ensures t.total.line == r.total.line + 1
    ensures t.total.messageLength == r.total.messageLength + MessageBytes(log)
    ensures t.total.facility == Increment(r.total.facility, FacilityName(log))
    ensures ServiceUnit(log).None? ==> t.service == r.service
    ensures ServiceUnit(log).Some? ==>
      var unit := ServiceUnit(log).value;
      && t.service.Keys == r.service.Keys + {unit}
      && (forall other :: other in r.service && other != unit ==> t.service[other] == r.service[other])
      && t.service[unit].line == ServiceOf(r.service, unit).line + 1
      && t.service[unit].messageLength == ServiceOf(r.service, unit).messageLength + MessageBytes(log)
      && t.service[unit].priorities == Increment(ServiceOf(r.service, unit).priorities, log.priority)
  {
    var total := LogTotalCount(r.total.line + 1,
                               r.total.messageLength + MessageBytes(log),
                               Increment(r.total.facility, FacilityName(log)));
    match ServiceUnit(log)
    case None => LogReport(total, r.service)
    case Some(unit) =>
      LogReport(total, r.service[unit := Served(ServiceOf(r.service, unit), log.priority, MessageBytes(log))])
  }

  /** The report of a sequence of records, folded from the first to the last. */
  function Summarize(logs: seq<Log>): (r: LogReport)
    ensures r.total.line == |logs|
    ensures forall unit :: unit in r.service ==> 0 < r.service[unit].line <= |logs|
  {
    if logs == [] then EmptyReport else Tally(Summarize(logs[..|logs| - 1]), logs[|logs| - 1])
  }

  /** `deserialize_fallback` applied to each line. */
  function ClassifyEach(lines: seq<Line>): (outs: seq<Outcome<Log>>)
    ensures |outs| == |lines|
  {
    seq(|lines|, i requires 0 <= i < |lines| => DeserializeFallback(lines[i]))
  }

  /** The values of a sequence of outcomes in order, or the first outcome that is not one. */
  function Collect<T>(outs: seq<Outcome<T>>): (r: Outcome<seq<T>>)
    ensures r.Done? ==> |r.value| == |outs|
  {
    if outs == [] then Done([])
    else
      var init :- Collect(outs[..|outs| - 1]);
      var last :- outs[|outs| - 1];
      Done(init + [last])
  }

  /** What `count` computes: the report of all records, or the first failing line's outcome. */
  function CountSpec(lines: seq<Line>): (r: Outcome<LogReport>)
    ensures lines == [] ==> r == Done(EmptyReport)
    ensures r.Done? ==> r.value.total.line == |lines|
  {
    var logs :- Collect(ClassifyEach(lines));
    Done(Summarize(logs))
  }

  /** A prefix that already failed decides the outcome of the whole sequence. */
  lemma {:induction false} PrefixFailure<T>(outs: seq<Outcome<T>>, k: nat)
    requires k <= |outs| && !Collect(outs[..k]).Done?
    ensures Collect(outs) == Collect(outs[..k])
    decreases |outs|
  {
    if k < |outs| {
      var init := outs[..|outs| - 1];
      assert init[..k] == outs[..k];
      PrefixFailure(init, k);
    } else {
      assert outs[..k] == outs;
    }
  }

  /** A prefix that collected to `vs`, extended by one value, collects to `vs` and that value. */
  lemma CollectStep<T>(outs: seq<Outcome<T>>, i: nat, vs: seq<T>)
    requires i < |outs| && Collect(outs[..i]) == Done(vs) && outs[i].Done?
    ensures Collect(outs[..i + 1]) == Done(vs + [outs[i].value])
  {
    assert outs[..i + 1][..i] == outs[..i];
  }

  // ---------------------------------------------------------------- the methods

  /** One more line, `bytes` more message bytes and one more in the bucket `name` of the totals. */
  method CountFacility(counter: LogTotalCount, name: string, bytes: nat) returns (counter': LogTotalCount)
    ensures counter' == LogTotalCount(counter.line + 1, counter.messageLength + bytes, Increment(counter.facility, name))
  {
    counter' := counter.(line := counter.line + 1);
    counter' := counter'.(facility := Increment(counter'.facility, name));
    counter' := counter'.(messageLength := counter'.messageLength + bytes);
  }

  /** The unit's entry of `count`'s loop, created empty on first use and updated by one record. */
  method CountService(servicesCounter: map<string, ServiceCount>, unit: string, priority: U8, message: string)
    returns (servicesCounter': map<string, ServiceCount>)
    ensures servicesCounter' == servicesCounter[unit := Served(ServiceOf(servicesCounter, unit), priority, Utf8Length(message))]
  {
    var s := if unit in servicesCounter then servicesCounter[unit] else EmptyService;
    s := s.(line := s.line + 1);
    s := s.(messageLength := s.messageLength + Utf8Length(message));
    s := s.(priorities := Increment(s.priorities, priority));
    servicesCounter' := servicesCounter[unit := s];
  }

  /** The body of `count`'s loop: one classified record updates the counters. */
  method CountRecord(counter: LogTotalCount, servicesCounter: map<string, ServiceCount>, log: Log)
    returns (counter': LogTotalCount, servicesCounter': map<string, ServiceCount>)
    ensures LogReport(counter', servicesCounter') == Tally(LogReport(counter, servicesCounter), log)
  {
    var counter := counter;
    var servicesCounter := servicesCounter;
    match log {
      case Kernel(_, _, message, _, _) =>
        counter := CountFacility(counter, "kernel", Utf8Length(message));
      case Journal(_, priority, unit, message, _, _) =>
        counter := CountFacility(counter, "journal", Utf8Length(message));
        servicesCounter := CountService(servicesCounter, unit, priority, message);
      case Syslog(_, _, message, _, _) =>
        counter := CountFacility(counter, "syslog", Utf8Length(message));
      case Stdout(_, unit, priority, message, _, _) =>
        counter := CountFacility(counter, "stdout", Utf8Length(message));
        servicesCounter := CountService(servicesCounter, unit, priority, message);
      case Audit(_, _, message, _, _) =>
        counter := CountFacility(counter, "audit", Utf8Length(message));
      case Driver(_, _, message, _, _) =>
        counter := CountFacility(counter, "driver", Utf8Length(message));
      case Invalid(_, _, _, _, _) =>
        counter := CountFacility(counter, "invalid", 0);
    }
    counter', servicesCounter' := counter, servicesCounter;
  }

  /**
   * `count`: classifies each line and updates the counters in place; a line
   * that neither decode accepts ends the walk with its error (or its panic).
   */
  method Count(lines: seq<Line>) returns (r: Outcome<LogReport>)
    ensures r == CountSpec(lines)
  {
    var counter := LogTotalCount(0, 0, map[]);
    var servicesCounter: map<string, ServiceCount> := map[];
    ghost var logs: seq<Log> := [];
    ghost var outs := ClassifyEach(lines);
    for i := 0 to |lines|
      invariant Collect(outs[..i]) == Done(logs)
      invariant LogReport(counter, servicesCounter) == Summarize(logs)
    {
      var p := DeserializeFallback(lines[i]);
      assert outs[i] == p;
      if !p.Done? {
        assert outs[..i + 1][..i] == outs[..i];
        PrefixFailure(outs, i + 1);
        return p.PropagateFailure();
      }
      CollectStep(outs, i, logs);
      counter, servicesCounter := CountRecord(counter, servicesCounter, p.value);
      logs := logs + [p.value];
      assert logs[..|logs| - 1] == logs[..i];
    }
    assert outs[..|lines|] == outs;
    r := Done(LogReport(counter, servicesCounter));
  }

  /** `ServiceCount::total_line_count`: the sum of the priority histogram. */
  method TotalLineCount(s: ServiceCount) returns (count: nat)
    ensures count == Sum(s.priorities)
  {
    count := 0;
    var rest := s.priorities.Keys;
    while rest != {}
      invariant rest <= s.priorities.Keys
      invariant count + SumOver(s.priorities, rest) == Sum(s.priorities)
      decreases rest
    {
      var k :| k in rest;
      SumOverRemove(s.priorities, rest, k);
      count := count + s.priorities[k];
      rest := rest - {k};
    }
  }

  datatype Ordering = Less | Equal | Greater

  /** Three-way comparison of two counts. */
  function Compare(a: nat, b: nat): (o: Ordering)
  {
    if a < b then Less else if a > b then Greater else Equal
  }

  /** The order `compare_count` puts services in: by the sums of their priority histograms. */
  ghost function ServiceOrder(a: ServiceCount, b: ServiceCount): Ordering
  {
    Compare(Sum(a.priorities), Sum(b.priorities))
  }

  /** `ServiceCount::compare_count`. */
  method CompareCount(a: ServiceCount, b: ServiceCount) returns (o: Ordering)
    ensures o == Less <==> Sum(a.priorities) < Sum(b.priorities)
    ensures o == Equal <==> Sum(a.priorities) == Sum(b.priorities)
    ensures o == Greater <==> Sum(a.priorities) > Sum(b.priorities)
    ensures o == ServiceOrder(a, b)
  {
    var x := TotalLineCount(a);
    var y := TotalLineCount(b);
    if x < y {
      o := Less;
    } else if x > y {
      o := Greater;
    } else {
      o := Equal;
    }
  }
}
