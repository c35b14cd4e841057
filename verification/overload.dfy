/** The overload-indication search (`overload_indication_measurement._measure`
    and the loop of `rms_accuracy_and_overload60651`): starting from the
    attenuation found for the initial level, the attenuation is lowered in
    0.5 dB steps until the operator first reports an overload, then in
    0.1 dB steps until the second report, and the attenuation then recorded
    is 1.0 dB above where the search stood. Attenuations are hundredths of
    a dB; operator answers are an input sequence. */
module Overload {
  import opened Wrappers
  import opened Tolerance
  import El100

  /** getText(...).lower() == "y": the answer is the single letter y or Y. */
  predicate IsYes(answer: string) {
    |answer| == 1 && (answer[0] == 'y' || answer[0] == 'Y')
  }

  const CoarseStep: nat := 50
  const FineStep: nat := 10
  /** The one-time correction applied at the second "y". */
  const Correction: nat := 100

  /** The attenuator command for a value on the scale. */
  function Command(h: int): (cmd: string)
    requires 0 <= h <= 9999
    ensures El100.Set(El100.Number(h)) == Ok(cmd)
    ensures El100.DecodeCommand(cmd) == Some(h)
  {
    El100.SetRoundTrip(h);
    El100.Set(El100.Number(h)).value
  }

  /** Below the top of the scale, `set` accepts exactly the non-negative
      values; a negative one is formatted with a leading '-', which int()
      rejects. */
  lemma SetOnScale(h: int)
    requires h <= 9999
    ensures El100.Set(El100.Number(h)).Ok? <==> h >= 0
    ensures h < 0 ==> El100.Set(El100.Number(h)) == Err(El100.NotADigit(0, '-'))
  {
    El100.SetAccepts(h);
  }

  function Commands(values: seq<int>): (cmds: seq<string>)
    requires forall i :: 0 <= i < |values| ==> 0 <= values[i] <= 9999
    ensures |cmds| == |values|
    ensures forall i :: 0 <= i < |values| ==> El100.DecodeCommand(cmds[i]) == Some(values[i])
  {
    seq(|values|, i requires 0 <= i < |values| => Command(values[i]))
  }

  /** The operator's answers, each read as "overload" or not. */
  function Reports(answers: seq<string>): (r: seq<bool>)
    ensures |r| == |answers|
    ensures forall i :: 0 <= i < |answers| ==> r[i] == IsYes(answers[i])
  {
    seq(|answers|, i requires 0 <= i < |answers| => IsYes(answers[i]))
  }

  /** How the search ended: with an attenuation recorded, still running
      when the answers ran out (in the fine phase or not), or at a `set`
      that raised. */
  datatype Stop = Found | Pending(fine: bool) | Fault(error: El100.SetError)

  /** The state the search ended in after `consumed` answers: where the
      attenuation stood and the values written to the attenuator, in order. */
  datatype Outcome = Outcome(stop: Stop, attenuation: int, consumed: nat, sent: seq<int>)

  /** The outcome after `values` were sent for as many earlier answers. */
  function Shift(values: seq<int>, o: Outcome): (r: Outcome)
    ensures r.stop == o.stop && r.attenuation == o.attenuation
  {
    o.(consumed := o.consumed + |values|, sent := values + o.sent)
  }

  /** The loop body in the fine phase, as a fold over the answers: an
      overload report ends the search at attenuation + 1.0 dB; any other
      answer lowers the attenuation by 0.1 dB and sends it, and `set` raises
      once that is negative. */
  function FineSearch(atten: int, reports: seq<bool>): (o: Outcome)
    requires 0 <= atten <= 9999
    ensures 1 <= o.consumed <= |reports| || (o.consumed == 0 && reports == [])
    ensures o.stop == Found ==> 1 <= o.consumed <= |reports| && reports[o.consumed - 1]
    ensures o.stop == Found ==> o.attenuation <= atten + Correction
    ensures o.stop.Pending? ==> o.stop.fine && o.attenuation <= atten && o.consumed == |o.sent| == |reports|
    ensures o.stop.Fault? ==> o.attenuation < 0
    decreases |reports|
  {
    if |reports| == 0 then Outcome(Pending(true), atten, 0, [])
    else if reports[0] then Outcome(Found, atten + Correction, 1, [])
    else
      var next := atten - FineStep;
      SetOnScale(next);
      if next < 0 then Outcome(Fault(El100.NotADigit(0, '-')), next, 1, [])
      else
        var rest := FineSearch(next, reports[1..]);
        assert rest.stop == Found ==> reports[1..][rest.consumed - 1] == reports[rest.consumed];
        Shift([next], rest)
  }

  /** The whole loop, from the initial attenuation, starting in the
      coarse phase: an overload report switches to the fine step and
      re-sends the unchanged value; any other answer lowers the attenuation
      by 0.5 dB and sends it, and `set` raises once that is negative. */
  function Search(atten: int, reports: seq<bool>): (o: Outcome)
    requires 0 <= atten <= 9999
    ensures 1 <= o.consumed <= |reports| || (o.consumed == 0 && reports == [])
    ensures o.stop == Found ==> 1 <= o.consumed <= |reports| && reports[o.consumed - 1]
    ensures o.stop == Found ==> o.attenuation <= atten + Correction
    ensures o.stop.Pending? ==> o.attenuation <= atten && o.consumed == |o.sent| == |reports|
    ensures o.stop.Fault? ==> o.attenuation < 0
    decreases |reports|
  {
    if |reports| == 0 then Outcome(Pending(false), atten, 0, [])
    else
      var next := if reports[0] then atten else atten - CoarseStep;
      SetOnScale(next);
      if next < 0 then Outcome(Fault(El100.NotADigit(0, '-')), next, 1, [])
      else
        var rest := if reports[0] then FineSearch(next, reports[1..]) else Search(next, reports[1..]);
        assert rest.stop == Found ==> reports[1..][rest.consumed - 1] == reports[rest.consumed];
        Shift([next], rest)
  }

  predicate SentBetween(values: seq<int>, lo: int, hi: int) {
    forall i :: 0 <= i < |values| ==> lo <= values[i] <= hi
  }

  /** Prepending a value in range keeps every sent value in range. */
  lemma SentBetweenShift(next: int, o: Outcome, lo: int, hi: int)
    requires lo <= next <= hi && SentBetween(o.sent, lo, hi)
    ensures SentBetween(Shift([next], o).sent, lo, hi)
  {
    var s := Shift([next], o).sent;
    assert forall i :: 1 <= i < |s| ==> s[i] == o.sent[i - 1];
  }

  /** Every value the fine phase sends is on the scale, at or below where
      it started. */
  lemma {:induction false} FineSentOnScale(atten: int, reports: seq<bool>)
    requires 0 <= atten <= 9999
    ensures SentBetween(FineSearch(atten, reports).sent, 0, atten)
    decreases |reports|
  {
    if |reports| > 0 && !reports[0] && atten - FineStep >= 0 {
      var next := atten - FineStep;
      FineSentOnScale(next, reports[1..]);
      SentBetweenShift(next, FineSearch(next, reports[1..]), 0, atten);
    }
  }

  /** Every value the search sends is on the scale, at or below the start. */
  lemma {:induction false} SentOnScale(atten: int, reports: seq<bool>)
    requires 0 <= atten <= 9999
    ensures SentBetween(Search(atten, reports).sent, 0, atten)
    decreases |reports|
  {
    if |reports| > 0 {
      var next := if reports[0] then atten else atten - CoarseStep;
      if next >= 0 {
        if reports[0] {
          FineSentOnScale(next, reports[1..]);
          SentBetweenShift(next, FineSearch(next, reports[1..]), 0, atten);
        } else {
          SentOnScale(next, reports[1..]);
          SentBetweenShift(next, Search(next, reports[1..]), 0, atten);
        }
      }
    }
  }

  /** The values n steps of `step` below a, in the order they are sent. */
  function Staircase(a: int, step: nat, n: nat): (values: seq<int>)
    ensures |values| == n
    decreases n
  {
    if n == 0 then [] else [a - step] + Staircase(a - step, step, n - 1)
  }

  /** The i-th value sent is i + 1 steps below a. */
  lemma {:induction false} StaircaseValues(a: int, step: nat, n: nat)
    ensures forall i :: 0 <= i < n ==> Staircase(a, step, n)[i] == a - step * (i + 1)
    decreases n
  {
    if n > 0 {
      StaircaseValues(a - step, step, n - 1);
      forall i | 0 <= i < n
        ensures Staircase(a, step, n)[i] == a - step * (i + 1)
      {
        if i > 0 {
          assert Staircase(a, step, n)[i] == Staircase(a - step, step, n - 1)[i - 1];
          assert step * (i + 1) == step * i + step;
        }
      }
    }
  }

  /** Sending v and then the values of an outcome that follows t is sending
      [v] + inner before t. */
  lemma ShiftLink(s0: Outcome, s1: Outcome, v: int, inner: seq<int>, t: Outcome, whole: seq<int>)
    requires s0 == Shift([v], s1) && s1 == Shift(inner, t) && [v] + inner == whole
    ensures s0 == Shift(whole, t)
  {
    ShiftShift([v], inner, t);
  }

  lemma ShiftShift(v1: seq<int>, v2: seq<int>, o: Outcome)
    ensures Shift(v1, Shift(v2, o)) == Shift(v1 + v2, o)
  {
    assert forall v :: v1 + (v2 + v) == (v1 + v2) + v;
  }

  /** Whether the first report among `reports` is at position k. */
  predicate FirstReportAt(reports: seq<bool>, k: nat) {
    k < |reports| && reports[k] && forall i :: 0 <= i < k ==> !reports[i]
  }

  lemma FirstReportTail(reports: seq<bool>, k: nat)
    requires k > 0 && FirstReportAt(reports, k)
    ensures |reports| > 0 && !reports[0] && FirstReportAt(reports[1..], k - 1)
    ensures reports[1..][k..] == reports[k + 1..]
  {
    forall i | 0 <= i < k - 1
      ensures !reports[1..][i]
    {
      assert reports[1..][i] == reports[i + 1];
    }
  }

  /** The fine phase: after k answers without a report and then a report,
      the search records b + 1.0 dB where b = a - 0.1 k dB, having sent each
      step's value. */
  lemma {:induction false} FinePhase(a: int, k: nat, b: int, reports: seq<bool>)
    requires b == a - 10 * k && b >= 0 && a <= 9999
    requires FirstReportAt(reports, k)
    ensures FineSearch(a, reports) == Outcome(Found, b + Correction, k + 1, Staircase(a, 10, k))
    decreases k
  {
    if k == 0 {
      assert Staircase(a, 10, 0) == [];
    } else {
      FirstReportTail(reports, k);
      FinePhase(a - 10, k - 1, b, reports[1..]);
    }
  }

  /** The coarse phase: after k answers without a report and then a report,
      the search continues in the fine phase from b = a - 0.5 k dB on the
      answers after that report, having sent each step's value and then b
      once more. */
  lemma {:induction false} CoarsePhase(a: int, k: nat, b: int, reports: seq<bool>, tail: seq<bool>)
    requires b == a - 50 * k && b >= 0 && a <= 9999
    requires FirstReportAt(reports, k) && tail == reports[k + 1..]
    ensures Search(a, reports) == Shift(Staircase(a, 50, k) + [b], FineSearch(b, tail))
    decreases k
  {
    if k == 0 {
      assert b == a && tail == reports[1..];
      SwitchToFine(a, reports);
    } else {
      FirstReportTail(reports, k);
      CoarseStepDown(a, reports);
      CoarsePhase(a - 50, k - 1, b, reports[1..], tail);
      var t := FineSearch(b, tail);
      var inner := Staircase(a - 50, 50, k - 1) + [b];
      StaircaseAppend(a, 50, k, [b]);
      ShiftLink(Search(a, reports), Search(a - 50, reports[1..]), a - 50, inner, t, Staircase(a, 50, k) + [b]);
    }
  }

  /** An answer without a report in the coarse phase sends the value 0.5 dB
      lower and continues from it. */
  lemma CoarseStepDown(a: int, reports: seq<bool>)
    requires 50 <= a <= 9999 && |reports| > 0 && !reports[0]
    ensures Search(a, reports) == Shift([a - 50], Search(a - 50, reports[1..]))
  {
  }

  /** The first report in the coarse phase re-sends the value and switches
      to the fine step. */
  lemma SwitchToFine(a: int, reports: seq<bool>)
    requires 0 <= a <= 9999 && |reports| > 0 && reports[0]
    ensures Search(a, reports) == Shift(Staircase(a, 50, 0) + [a], FineSearch(a, reports[1..]))
  {
    assert Staircase(a, 50, 0) + [a] == [a];
  }

  lemma StaircaseAppend(a: int, step: nat, n: nat, tail: seq<int>)
    requires n > 0
    ensures [a - step] + (Staircase(a - step, step, n - 1) + tail) == Staircase(a, step, n) + tail
  {
    assert Staircase(a, step, n) == [a - step] + Staircase(a - step, step, n - 1);
  }

  /** The final-state formula: when the first report comes after n1
      answers without one and the next after n2 further answers without
      one, the search records start - 0.5 n1 dB - 0.1 n2 dB + 1.0 dB after
      n1 + n2 + 2 answers, provided the values stay on the scale; the values
      sent are the coarse staircase, its last value again, and the fine
      staircase. Later answers are never read. */
  lemma SearchClosedForm(start: int, n1: nat, n2: nat, reports: seq<bool>)
    requires start <= 9999 && start - 50 * n1 - 10 * n2 >= 0
    requires FirstReportAt(reports, n1) && FirstReportAt(reports[n1 + 1..], n2)
    ensures var o := Search(start, reports);
      && o.stop == Found
      && o.attenuation == start - 50 * n1 - 10 * n2 + 100
      && o.consumed == n1 + n2 + 2
      && var a := start - 50 * n1;
         o.sent == Staircase(start, 50, n1) + [a] + Staircase(a, 10, n2)
  {
    var a := start - 50 * n1;
    CoarsePhase(start, n1, a, reports, reports[n1 + 1..]);
    FinePhase(a, n2, a - 10 * n2, reports[n1 + 1..]);
  }

  /** Starting at 10.00 dB, the answers n, n, y, n, y: two coarse steps, the
      switch, one fine step and the stop record 10.00 - 1.00 - 0.10 + 1.00 =
      9.90 dB, having sent 9.50, 9.00, 9.00 and 8.90 dB. */
  lemma SearchExample()
    ensures Search(1000, Reports(["n", "n", "y", "n", "y"]))
            == Outcome(Found, 990, 5, [950, 900, 900, 890])
  {
    ExampleAnswers();
    ExampleSearch([false, false, true, false, true]);
  }

  lemma ExampleAnswers()
    ensures Reports(["n", "n", "y", "n", "y"]) == [false, false, true, false, true]
  {
    assert IsYes("y") && !IsYes("n");
  }

  lemma ExampleSearch(r: seq<bool>)
    requires r == [false, false, true, false, true]
    ensures Search(1000, r) == Outcome(Found, 990, 5, [950, 900, 900, 890])
  {
    assert FirstReportAt(r, 2);
    assert r[3..] == [false, true];
    assert FirstReportAt(r[3..], 1);
    SearchClosedForm(1000, 2, 1, r);
    assert Staircase(1000, 50, 2) == [950, 900];
    assert Staircase(900, 10, 1) == [890];
  }

  /** A search that lowers the attenuation below zero stops at the `set`
      that formats the negative value. */
  lemma NegativeValueFaults()
    ensures Search(30, [false]) == Outcome(Fault(El100.NotADigit(0, '-')), -20, 1, [])
  {
  }

  // ---------------------------------------------------------------------
  // Results
  // ---------------------------------------------------------------------

  /** Class 1 iff the overload reading is within 1.8 dB of the initial level. */
  function OverloadGrade(diff: real): (g: Grade)
    ensures g == Class1 <==> -1.8 <= diff <= 1.8
    ensures g == Class1 || g == Class2
  {
    if -1.8 <= diff <= 1.8 then Class1 else Class2
  }

  /** initial SLM, initial attenuation, overload SLM, overload attenuation,
      difference, uncertainty, class. */
  datatype Row = Row(
    initialLevel: real,
    initialAttenuation: int,
    overloadLevel: real,
    overloadAttenuation: int,
    diff: real,
    uncertainty: real,
    grade: Grade)

  function MakeRow(initialLevel: real, initialAttenuation: int, overloadLevel: real, overloadAttenuation: int): (r: Row)
    ensures r.diff == overloadLevel - initialLevel && r.uncertainty == 0.2
    ensures r.grade == Class1 <==> -1.8 <= overloadLevel - initialLevel <= 1.8
  {
    var diff := overloadLevel - initialLevel;
    Row(initialLevel, initialAttenuation, overloadLevel, overloadAttenuation, diff, 0.2, OverloadGrade(diff))
  }

  datatype Failure = AnswersExhausted | SetRejected(error: El100.SetError)

  /** One measurement: the search from the initial attenuation, then the
      operator's overload reading. */
  datatype Measurement = Measurement(row: Row, consumed: nat, commands: seq<string>)

  function Measure(initialLevel: real, initialAttenuation: int, answers: seq<string>, overloadLevel: real)
    : (r: Result<Measurement, Failure>)
    requires 0 <= initialAttenuation <= 9999
    ensures var o := Search(initialAttenuation, Reports(answers));
      && (r.Ok? <==> o.stop == Found)
      && (o.stop.Pending? ==> r == Err(AnswersExhausted))
      && (o.stop.Fault? ==> r == Err(SetRejected(o.stop.error)))
      && (r.Ok? ==> r.value.row == MakeRow(initialLevel, initialAttenuation, overloadLevel, o.attenuation)
                    && r.value.consumed == o.consumed
                    && |r.value.commands| == |o.sent|
                    && forall i :: 0 <= i < |o.sent| ==> El100.DecodeCommand(r.value.commands[i]) == Some(o.sent[i]))
  {
    SentOnScale(initialAttenuation, Reports(answers));
    var o := Search(initialAttenuation, Reports(answers));
    match o.stop
    case Found =>
      Ok(Measurement(MakeRow(initialLevel, initialAttenuation, overloadLevel, o.attenuation), o.consumed, Commands(o.sent)))
    case Pending(_) => Err(AnswersExhausted)
    case Fault(e) => Err(SetRejected(e))
  }

  /** `overload_indication_measurement`: the positive and then the negative
      half-cycle measurement, both searching from the same initial
      attenuation (the attenuator is not reset in between) against the
      initial level upper - 1 dB. */
  function OverloadIndication(upperRange: real, initialAttenuation: int,
                              positive: seq<string>, positiveLevel: real,
                              negative: seq<string>, negativeLevel: real)
    : (r: Result<seq<Measurement>, Failure>)
    requires 0 <= initialAttenuation <= 9999
    ensures r.Ok? <==> Search(initialAttenuation, Reports(positive)).stop == Found
                       && Search(initialAttenuation, Reports(negative)).stop == Found
    ensures r.Ok? ==>
      && |r.value| == 2
      && Measure(upperRange - 1.0, initialAttenuation, positive, positiveLevel) == Ok(r.value[0])
      && Measure(upperRange - 1.0, initialAttenuation, negative, negativeLevel) == Ok(r.value[1])
  {
    var first :- Measure(upperRange - 1.0, initialAttenuation, positive, positiveLevel);
    var second :- Measure(upperRange - 1.0, initialAttenuation, negative, negativeLevel);
    Ok([first, second])
  }

  /** `rms_accuracy_and_overload60651` uses a fixed 120 dB upper range. */
  const RmsUpperRange: real := 120.0

  /** The three rows of the RMS accuracy test and the attenuation reached
      after the 1 dB and further 3 dB reductions, which is never sent. */
  datatype RmsResult = RmsResult(rows: seq<Row>, reducedAttenuation: int, commands: seq<string>)

  /** The search, then readings at the overload point and after lowering the
      signal by 1 dB and a further 3 dB; all three rows record the overload
      attenuation and compare against 119 dB. */
  function RmsAccuracy(initialAttenuation: int, answers: seq<string>, levels: seq<real>)
    : (r: Result<RmsResult, Failure>)
    requires 0 <= initialAttenuation <= 9999
    requires |levels| == 3
    ensures r.Ok? <==> Search(initialAttenuation, Reports(answers)).stop == Found
    ensures r.Ok? ==>
      var a := Search(initialAttenuation, Reports(answers)).attenuation;
      && |r.value.rows| == 3
      && r.value.reducedAttenuation == a - 400
      && (var sent := Search(initialAttenuation, Reports(answers)).sent;
          && |r.value.commands| == |sent|
          && forall i :: 0 <= i < |sent| ==> El100.DecodeCommand(r.value.commands[i]) == Some(sent[i]))
      && forall k :: 0 <= k < 3 ==>
           r.value.rows[k] == MakeRow(RmsUpperRange - 1.0, initialAttenuation, levels[k], a)
  {
    var m :- Measure(RmsUpperRange - 1.0, initialAttenuation, answers, levels[0]);
    var a := m.row.overloadAttenuation;
    var reduced := a - 100 - 300;
    Ok(RmsResult([m.row,
                  MakeRow(RmsUpperRange - 1.0, initialAttenuation, levels[1], a),
                  MakeRow(RmsUpperRange - 1.0, initialAttenuation, levels[2], a)],
                 reduced, m.commands))
  }
}
