/**
 * What the aggregator's report means: every field of the report stated in
 * terms of the classified records, the counting invariants the fold keeps,
 * how a failing line ends `count`, and the order `compare_count` defines.
 */
module LogStatProps {
  import opened Model
  import opened MapSums
  import opened LogStat

  // ---------------------------------------------------------------- reference counts

  /** The number of records counted in facility bucket `name`. */
  function FacilityCount(logs: seq<Log>, name: string): (n: nat)
    ensures n <= |logs|
  {
    if logs == [] then 0
    else FacilityCount(logs[..|logs| - 1], name) + (if FacilityName(logs[|logs| - 1]) == name then 1 else 0)
  }

  /** The message bytes of all records. */
  function TotalMessageBytes(logs: seq<Log>): nat
  {
    if logs == [] then 0 else TotalMessageBytes(logs[..|logs| - 1]) + MessageBytes(logs[|logs| - 1])
  }

  /** The number of records counted under unit `unit`. */
  function UnitLines(logs: seq<Log>, unit: string): (n: nat)
    ensures n <= |logs|
  {
    if logs == [] then 0
    else UnitLines(logs[..|logs| - 1], unit) + (if ServiceUnit(logs[|logs| - 1]) == Some(unit) then 1 else 0)
  }

  /** The message bytes of the records counted under unit `unit`. */
  function UnitBytes(logs: seq<Log>, unit: string): (n: nat)
    ensures UnitLines(logs, unit) == 0 ==> n == 0
  {
    if logs == [] then 0
    else UnitBytes(logs[..|logs| - 1], unit) + (if ServiceUnit(logs[|logs| - 1]) == Some(unit) then MessageBytes(logs[|logs| - 1]) else 0)
  }

  /** The number of records counted under unit `unit` with priority `p`. */
  function UnitPriorityLines(logs: seq<Log>, unit: string, p: U8): (n: nat)
    ensures n <= UnitLines(logs, unit)
  {
    if logs == [] then 0
    else
      var last := logs[|logs| - 1];
      UnitPriorityLines(logs[..|logs| - 1], unit, p) + (if ServiceUnit(last) == Some(unit) && last.priority == p then 1 else 0)
  }

  // ---------------------------------------------------------------- the report, field by field

  /** `total.line` counts the records and `total.message_length` sums their message bytes. */
  lemma {:induction false} SummarizeTotals(logs: seq<Log>)
    ensures Summarize(logs).total.line == |logs|
    ensures Summarize(logs).total.messageLength == TotalMessageBytes(logs)
  {
    if logs != [] {
      SummarizeTotals(logs[..|logs| - 1]);
    }
  }

  /** Each facility bucket holds exactly the records of that facility, and no bucket is empty. */
  lemma {:induction false} SummarizeFacility(logs: seq<Log>, name: string)
    ensures name in Summarize(logs).total.facility <==> FacilityCount(logs, name) > 0
    ensures name in Summarize(logs).total.facility ==> Summarize(logs).total.facility[name] == FacilityCount(logs, name)
  {
    if logs != [] {
      SummarizeFacility(logs[..|logs| - 1], name);
    }
  }

  /**
   * A unit has an entry exactly when some journal or stdout record names it;
   * the entry counts those records, their message bytes and their priorities.
   */
  lemma {:induction false} SummarizeService(logs: seq<Log>, unit: string, p: U8)
    ensures unit in Summarize(logs).service <==> UnitLines(logs, unit) > 0
    ensures unit in Summarize(logs).service ==>
      && Summarize(logs).service[unit].line == UnitLines(logs, unit)
      && Summarize(logs).service[unit].messageLength == UnitBytes(logs, unit)
      && (p in Summarize(logs).service[unit].priorities <==> UnitPriorityLines(logs, unit, p) > 0)
      && (p in Summarize(logs).service[unit].priorities ==>
            Summarize(logs).service[unit].priorities[p] == UnitPriorityLines(logs, unit, p))
  {
    if logs != [] {
      var init := logs[..|logs| - 1];
      var last := logs[|logs| - 1];
      SummarizeService(init, unit, p);
      if ServiceUnit(last) == Some(unit) {
        assert Summarize(logs).service[unit].messageLength
            == ServiceOf(Summarize(init).service, unit).messageLength + MessageBytes(last);
      } else {
        assert unit in Summarize(logs).service ==> Summarize(logs).service[unit] == Summarize(init).service[unit];
      }
    }
  }

  // ---------------------------------------------------------------- counting invariants

  /**
   * The invariant of a report: the facility histogram sums to the line count,
   * and every unit's priority histogram sums to that unit's line count.
   */
  ghost predicate Consistent(r: LogReport)
  {
    && r.total.line == Sum(r.total.facility)
    && forall unit :: unit in r.service ==> r.service[unit].line == Sum(r.service[unit].priorities)
  }

  /** Folding in one record keeps the report consistent. */
  lemma TallyConsistent(r: LogReport, log: Log)
    requires Consistent(r)
    ensures Consistent(Tally(r, log))
  {
    SumIncrement(r.total.facility, FacilityName(log));
    if ServiceUnit(log).Some? {
      var unit := ServiceUnit(log).value;
      var s := ServiceOf(r.service, unit);
      SumIncrement(s.priorities, log.priority);
      assert s.line == Sum(s.priorities) by {
        if unit !in r.service {
          assert s.priorities == map[];
        }
      }
    }
  }

  /** Every report `count` can build is consistent. */
  lemma {:induction false} SummarizeConsistent(logs: seq<Log>)
    ensures Consistent(Summarize(logs))
  {
    if logs == [] {
      assert Summarize(logs).total.facility == map[];
    } else {
      SummarizeConsistent(logs[..|logs| - 1]);
      TallyConsistent(Summarize(logs[..|logs| - 1]), logs[|logs| - 1]);
    }
  }

  /** Kernel, syslog, audit, driver and invalid records leave the unit map as it was. */
  lemma NonServiceKeepsServices(r: LogReport, log: Log)
    requires !log.Journal? && !log.Stdout?
    ensures Tally(r, log).service == r.service
    ensures Tally(r, log).total.line == r.total.line + 1
  {
  }

  /** An invalid record counts as a line in the "invalid" bucket and adds no message bytes. */
  lemma InvalidAddsNoBytes(r: LogReport, log: Log)
    requires log.Invalid?
    ensures Tally(r, log).total.messageLength == r.total.messageLength
    ensures Tally(r, log).total.facility == Increment(r.total.facility, "invalid")
  {
  }

  /** A message's UTF-8 length adds up over concatenation. */
  lemma {:induction false} Utf8LengthAppend(s: string, t: string)
    ensures Utf8Length(s + t) == Utf8Length(s) + Utf8Length(t)
    decreases |t|
  {
    if t == [] {
      assert s + t == s;
    } else {
      assert (s + t)[..|s + t| - 1] == s + t[..|t| - 1];
      Utf8LengthAppend(s, t[..|t| - 1]);
    }
  }

  /** An ASCII message is as many bytes long as it has characters. */
  lemma {:induction false} Utf8LengthAscii(s: string)
    requires forall i :: 0 <= i < |s| ==> s[i] as int < 0x80
    ensures Utf8Length(s) == |s|
  {
    if s != [] {
      Utf8LengthAscii(s[..|s| - 1]);
    }
  }

  // ---------------------------------------------------------------- the whole of `count`

  /** Empty input gives the empty report. */
  lemma CountEmpty()
    ensures CountSpec([]) == Done(EmptyReport)
    ensures EmptyReport.total.line == 0 && EmptyReport.total.messageLength == 0
    ensures EmptyReport.total.facility == map[] && EmptyReport.service == map[]
  {
  }

  /** Collecting succeeds exactly when every outcome is a value. */
  lemma {:induction false} CollectDone<T>(outs: seq<Outcome<T>>)
    ensures Collect(outs).Done? <==> forall i :: 0 <= i < |outs| ==> outs[i].Done?
  {
    if outs != [] {
      var init := outs[..|outs| - 1];
      CollectDone(init);
      assert forall i :: 0 <= i < |init| ==> init[i] == outs[i];
    }
  }

  /** Collecting keeps the order: the i-th value comes from the i-th outcome. */
  lemma {:induction false} CollectValues<T>(outs: seq<Outcome<T>>)
    requires Collect(outs).Done?
    ensures forall i :: 0 <= i < |outs| ==> outs[i].Done? && Collect(outs).value[i] == outs[i].value
  {
    if outs != [] {
      var init := outs[..|outs| - 1];
      CollectValues(init);
      assert forall i :: 0 <= i < |init| ==> init[i] == outs[i];
    }
  }

  /** `count` returns a report exactly when every line classifies. */
  lemma CountDone(lines: seq<Line>)
    ensures CountSpec(lines).Done? <==> forall i :: 0 <= i < |lines| ==> DeserializeFallback(lines[i]).Done?
  {
    var outs := ClassifyEach(lines);
    CollectDone(outs);
    assert forall i :: 0 <= i < |lines| ==> outs[i] == DeserializeFallback(lines[i]);
    assert CountSpec(lines).Done? <==> Collect(outs).Done?;
  }

  /**
   * A report `count` returns is the fold of the lines' records in order; it
   * counts every line, and its facility histogram sums to that count.
   */
  lemma CountReport(lines: seq<Line>)
    requires CountSpec(lines).Done?
    ensures exists logs: seq<Log> ::
      && |logs| == |lines|
      && (forall i :: 0 <= i < |lines| ==> DeserializeFallback(lines[i]) == Done(logs[i]))
      && CountSpec(lines).value == Summarize(logs)
    ensures CountSpec(lines).value.total.line == |lines|
    ensures CountSpec(lines).value.total.line == Sum(CountSpec(lines).value.total.facility)
  {
    var outs := ClassifyEach(lines);
    var logs := Collect(outs).value;
    CollectValues(outs);
    SummarizeTotals(logs);
    SummarizeConsistent(logs);
  }

  /** The first line that neither decode accepts ends `count` with that line's error or panic. */
  lemma CountStopsAtFirstFailure(lines: seq<Line>, k: nat)
    requires k < |lines|
    requires forall i :: 0 <= i < k ==> DeserializeFallback(lines[i]).Done?
    requires !DeserializeFallback(lines[k]).Done?
    ensures CountSpec(lines) == DeserializeFallback(lines[k]).PropagateFailure()
  {
    var outs := ClassifyEach(lines);
    var prefix := outs[..k];
    CollectDone(prefix);
    assert outs[..k + 1][..k] == prefix;
    PrefixFailure(outs, k + 1);
  }

  // ---------------------------------------------------------------- `compare_count`

  lemma ServiceOrderReflexive(a: ServiceCount)
    ensures ServiceOrder(a, a) == Equal
  {
  }

  lemma ServiceOrderAntisymmetric(a: ServiceCount, b: ServiceCount)
    ensures ServiceOrder(a, b) == Less <==> ServiceOrder(b, a) == Greater
    ensures ServiceOrder(a, b) == Equal <==> ServiceOrder(b, a) == Equal
  {
  }

  lemma ServiceOrderTransitive(a: ServiceCount, b: ServiceCount, c: ServiceCount)
    requires ServiceOrder(a, b) == Less && ServiceOrder(b, c) == Less
    ensures ServiceOrder(a, c) == Less
  {
  }

  /** The source's test: one line at priority '4' sorts before ten lines at priority '4'. */
  lemma ServiceOrderSample()
    ensures ServiceOrder(ServiceCount(1, 0, map[52 := 1]), ServiceCount(10, 0, map[52 := 10])) == Less
    ensures ServiceOrder(ServiceCount(1, 0, map[52 := 1]), ServiceCount(1, 0, map[52 := 1])) == Equal
    ensures ServiceOrder(ServiceCount(10, 0, map[52 := 10]), ServiceCount(1, 0, map[52 := 1])) == Greater
  {
    SumSingleton(52 as U8, 1);
    SumSingleton(52 as U8, 10);
  }
}
