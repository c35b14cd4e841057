/** The frequency-weighting procedure (`frequency_weightings`): with the
    generator tuned so the meter reads 45 dB below the top of its linear
    range at 1 kHz, the operator reads the meter at every configured
    frequency, once per weighting A, C and Z, and each reading becomes a
    classified row. */
module FrequencyWeighting {
  import opened Wrappers
  import opened Decimal
  import opened Tolerance

  /** The dictionary lookup that raised KeyError. */
  datatype LookupError =
    | MissingCaseCorrection(frequency: real)
    | MissingWindshieldCorrection(frequency: real)
    | UndefinedFrequency(frequency: real)

  /** The configuration the procedure reads. */
  datatype Setup = Setup(
    maxLevel: real,
    frequencies: seq<real>,
    caseCorrections: map<real, real>,
    windshieldCorrections: map<real, real>)

  /** One printed row: frequency, reference attenuation (hundredths), reading,
      windshield and case corrections, overall response, expected level,
      adjusted deviation and class. */
  datatype Row = Row(
    frequency: real,
    attenuation: int,
    reading: real,
    windshield: real,
    caseCorrection: real,
    overallResponse: real,
    expected: real,
    deviation: real,
    grade: Grade)

  /** spl_aim: 45 dB below the top of the linear operating range. */
  function TargetLevel(maxLevel: real): real {
    maxLevel - 45.0
  }

  /** Deviation before the uncertainty budget is added, rounded to 0.01 dB. */
  function RawDeviation(reading: real, expected: real, windshield: real, caseCorrection: real): real {
    Round(reading - expected + windshield + caseCorrection, 2)
  }

  /** One row; the lookups happen in the source's order: case correction,
      windshield correction, then the weighting table. */
  function MeasureRow(s: Setup, refAttenuation: int, w: Weighting, f: real, reading: real): (r: Result<Row, LookupError>)
    ensures r.Ok? <==> f in s.caseCorrections && f in s.windshieldCorrections && f in StandardFrequencies
    ensures f in s.caseCorrections && f in s.windshieldCorrections && f !in StandardFrequencies
            ==> r == Err(UndefinedFrequency(f))
    ensures r.Ok? ==>
      var row := r.value;
      && row.frequency == f && row.attenuation == refAttenuation && row.reading == reading
      && row.windshield == s.windshieldCorrections[f] && row.caseCorrection == s.caseCorrections[f]
      && row.expected == TargetLevel(s.maxLevel) + FrequencyWeightingTable[f].For(w)
      && row.overallResponse == reading + s.caseCorrections[f] + s.windshieldCorrections[f]
      && row.grade == FrequencyGrade(row.deviation, ToleranceLimits[f])
      && (var d := RawDeviation(reading, row.expected, s.windshieldCorrections[f], s.caseCorrections[f]);
          && Abs(row.deviation) == Abs(d) + FrequencyWeightingUncertainty
          && (row.deviation > 0.0 <==> d >= 0.0))
  {
    if f !in s.caseCorrections then Err(MissingCaseCorrection(f))
    else if f !in s.windshieldCorrections then Err(MissingWindshieldCorrection(f))
    else
      match Correction(f, w)
      case None => Err(UndefinedFrequency(f))
      case Some(correction) =>
        var caseCorrection := s.caseCorrections[f];
        var windshield := s.windshieldCorrections[f];
        var expected := TargetLevel(s.maxLevel) + correction;
        var deviation := PushAway(RawDeviation(reading, expected, windshield, caseCorrection));
        var limits := LimitsAt(f).value;
        Ok(Row(f, refAttenuation, reading, windshield, caseCorrection,
               reading + caseCorrection + windshield, expected, deviation,
               FrequencyGrade(deviation, limits)))
  }

  /** The rows of one weighting, one per configured frequency; the first
      failed lookup aborts the procedure. */
  function Sweep(s: Setup, refAttenuation: int, w: Weighting, freqs: seq<real>, readings: seq<real>)
    : (r: Result<seq<Row>, LookupError>)
    requires |readings| == |freqs|
    ensures r.Ok? ==> |r.value| == |freqs|
    decreases |freqs|
  {
    if |freqs| == 0 then Ok([])
    else
      var row :- MeasureRow(s, refAttenuation, w, freqs[0], readings[0]);
      var rest :- Sweep(s, refAttenuation, w, freqs[1..], readings[1..]);
      Ok([row] + rest)
  }

  predicate Measurable(s: Setup, f: real) {
    f in s.caseCorrections && f in s.windshieldCorrections && f in StandardFrequencies
  }

  /** A sweep succeeds iff every frequency can be looked up, and then holds
      exactly one row per frequency, in configuration order. */
  lemma {:induction false} SweepRows(s: Setup, refAttenuation: int, w: Weighting, freqs: seq<real>, readings: seq<real>)
    requires |readings| == |freqs|
    ensures Sweep(s, refAttenuation, w, freqs, readings).Ok?
            <==> forall i :: 0 <= i < |freqs| ==> Measurable(s, freqs[i])
    ensures Sweep(s, refAttenuation, w, freqs, readings).Ok? ==>
      var rows := Sweep(s, refAttenuation, w, freqs, readings).value;
      && |rows| == |freqs|
      && forall i :: 0 <= i < |freqs| ==> rows[i] == MeasureRow(s, refAttenuation, w, freqs[i], readings[i]).value
    decreases |freqs|
  {
    if |freqs| > 0 {
      SweepRows(s, refAttenuation, w, freqs[1..], readings[1..]);
      assert forall i :: 1 <= i < |freqs| ==> freqs[1..][i - 1] == freqs[i];
      if !Measurable(s, freqs[0]) {
        assert MeasureRow(s, refAttenuation, w, freqs[0], readings[0]).Err?;
      }
    }
  }

  /** The procedure: the A, C and Z sweeps in that order, `readings[k]` being
      the operator's readings for the k-th weighting. */
  function FrequencyWeightings(s: Setup, refAttenuation: int, readings: seq<seq<real>>)
    : (r: Result<seq<seq<Row>>, LookupError>)
    requires |readings| == 3
    requires forall k :: 0 <= k < 3 ==> |readings[k]| == |s.frequencies|
    ensures r.Ok? <==> forall i :: 0 <= i < |s.frequencies| ==> Measurable(s, s.frequencies[i])
    ensures r.Ok? ==>
      && |r.value| == 3
      && Sweep(s, refAttenuation, A, s.frequencies, readings[0]) == Ok(r.value[0])
      && Sweep(s, refAttenuation, C, s.frequencies, readings[1]) == Ok(r.value[1])
      && Sweep(s, refAttenuation, Z, s.frequencies, readings[2]) == Ok(r.value[2])
  {
    SweepRows(s, refAttenuation, A, s.frequencies, readings[0]);
    SweepRows(s, refAttenuation, C, s.frequencies, readings[1]);
    SweepRows(s, refAttenuation, Z, s.frequencies, readings[2]);
    var a :- Sweep(s, refAttenuation, A, s.frequencies, readings[0]);
    // The lookups do not depend on the weighting: once the A sweep has
    // succeeded, the C and Z sweeps cannot fail.
    Ok([a, Sweep(s, refAttenuation, C, s.frequencies, readings[1]).value,
           Sweep(s, refAttenuation, Z, s.frequencies, readings[2]).value])
  }

  /** A frequency outside the table aborts the whole procedure. */
  lemma UnlistedFrequencyAborts(s: Setup, refAttenuation: int, readings: seq<seq<real>>, i: nat)
    requires |readings| == 3
    requires forall k :: 0 <= k < 3 ==> |readings[k]| == |s.frequencies|
    requires i < |s.frequencies| && s.frequencies[i] !in StandardFrequencies
    ensures FrequencyWeightings(s, refAttenuation, readings).Err?
  {
    SweepRows(s, refAttenuation, A, s.frequencies, readings[0]);
  }

  /** A reading exactly on the expected level, with no corrections, gives the
      adjusted deviation +0.21 dB and class 1 at every listed frequency and
      weighting. */
  lemma OnTargetIsClass1(s: Setup, refAttenuation: int, w: Weighting, f: real)
    requires f in StandardFrequencies
    requires f in s.caseCorrections && s.caseCorrections[f] == 0.0
    requires f in s.windshieldCorrections && s.windshieldCorrections[f] == 0.0
    ensures var expected := TargetLevel(s.maxLevel) + FrequencyWeightingTable[f].For(w);
            var r := MeasureRow(s, refAttenuation, w, f, expected);
            r.Ok? && r.value.deviation == 0.21 && r.value.grade == Class1
  {
    var expected := TargetLevel(s.maxLevel) + FrequencyWeightingTable[f].For(w);
    assert RawDeviation(expected, expected, 0.0, 0.0) == 0.0 by {
      assert expected - expected + 0.0 + 0.0 == 0.0;
      assert RoundHalfAway(0.0 * Scale(2)) == 0;
    }
    assert Nested(LimitsAt(f).value);
  }
}
