/** Time weighting F, S and I (`time_weighting60651`): the generator is tuned
    so the meter reads 4 dB below the top of its linear operating range, and
    for each detector three burst readings are averaged and judged against
    the BS 7580 table of expected burst responses (`_pass_fail`). */
module TimeWeighting {
  import opened Wrappers
  import opened Bursts

  datatype Verdict = Pass | Fail

  /** The four rows of the BS 7580 table: fast and slow with a 200 ms and a
      500 ms burst, and the impulse detector with a 5 ms burst at 2 kHz and
      at 100 Hz. */
  datatype Detector = FastBurst | SlowBurst | Impulse2000 | Impulse100

  /** The label the procedure passes for each detector. */
  function Label(d: Detector): string {
    match d
    case FastBurst => "F"
    case SlowBurst => "S"
    case Impulse2000 => "I1"
    case Impulse100 => "I2"
  }

  /** `_pass_fail` as written: the expected burst response is subtracted
      from the difference re the steady level, and the remainder is checked
      against the inclusive band of the meter's type. An unknown label or a
      type outside the table gives no verdict. */
  function PassFail(slmType: int, diff: real, weighting: string): (v: Option<Verdict>)
    ensures v.Some? <==>
      ((weighting == "F" || weighting == "S") && 0 <= slmType <= 3)
      || ((weighting == "I1" || weighting == "I2") && 0 <= slmType <= 2)
  {
    if weighting == "F" then
      var d := diff - 1.0;
      if slmType == 0 then Some(if -0.5 <= d <= 0.5 then Pass else Fail)
      else if slmType == 1 then Some(if -1.0 <= d <= 1.0 then Pass else Fail)
      else if slmType == 2 then Some(if -2.0 <= d <= 1.0 then Pass else Fail)
      else if slmType == 3 then Some(if -3.0 <= d <= 1.0 then Pass else Fail)
      else None
    else if weighting == "S" then
      var d := diff - 4.1;
      if slmType == 0 then Some(if -0.5 <= d <= 0.5 then Pass else Fail)
      else if slmType == 1 then Some(if -1.0 <= d <= 1.0 then Pass else Fail)
      else if slmType == 2 then Some(if -2.0 <= d <= 2.0 then Pass else Fail)
      else if slmType == 3 then Some(if -2.0 <= d <= 2.0 then Pass else Fail)
      else None
    else if weighting == "I1" then
      var d := diff - 8.8;
      if slmType == 0 || slmType == 1 then Some(if -2.0 <= d <= 2.0 then Pass else Fail)
      else if slmType == 2 then Some(if -3.0 <= d <= 3.0 then Pass else Fail)
      else None
    else if weighting == "I2" then
      var d := diff - 2.7;
      if slmType == 0 || slmType == 1 then Some(if -1.0 <= d <= 1.0 then Pass else Fail)
      else if slmType == 2 then Some(if -2.0 <= d <= 2.0 then Pass else Fail)
      else None
    else None
  }

  // ---------------------------------------------------------------------
  // The BS 7580 table, as a table
  // ---------------------------------------------------------------------

  /** An inclusive tolerance band around the expected response. */
  datatype Band = Band(lower: real, upper: real) {
    predicate Contains(x: real) { lower <= x <= upper }
    predicate Within(other: Band) { other.lower <= lower && upper <= other.upper }
  }

  /** Expected burst response re the steady level, in dB. */
  function Offset(d: Detector): real {
    match d
    case FastBurst => 1.0
    case SlowBurst => 4.1
    case Impulse2000 => 8.8
    case Impulse100 => 2.7
  }

  /** The band of each meter type, as the table lists it per detector. */
  function Bands(d: Detector): seq<Band> {
    match d
    case FastBurst => [Band(-0.5, 0.5), Band(-1.0, 1.0), Band(-2.0, 1.0), Band(-3.0, 1.0)]
    case SlowBurst => [Band(-0.5, 0.5), Band(-1.0, 1.0), Band(-2.0, 2.0), Band(-2.0, 2.0)]
    case Impulse2000 => [Band(-2.0, 2.0), Band(-2.0, 2.0), Band(-3.0, 3.0)]
    case Impulse100 => [Band(-1.0, 1.0), Band(-1.0, 1.0), Band(-2.0, 2.0)]
  }

  /** The table's verdict for a detector. */
  function Judge(slmType: int, diff: real, d: Detector): (v: Option<Verdict>)
    ensures v.Some? <==> 0 <= slmType <= (if d == FastBurst || d == SlowBurst then 3 else 2)
    ensures v == Some(Pass) ==> -3.0 <= diff - Offset(d) <= 3.0
  {
    if 0 <= slmType < |Bands(d)| then
      Some(if Bands(d)[slmType].Contains(diff - Offset(d)) then Pass else Fail)
    else None
  }

  /** The nested branches agree with the table for every detector, and no
      other label gets a verdict. */
  lemma PassFailMatchesTable(slmType: int, diff: real, weighting: string)
    ensures forall d: Detector :: PassFail(slmType, diff, Label(d)) == Judge(slmType, diff, d)
    ensures (forall d: Detector :: weighting != Label(d)) ==> PassFail(slmType, diff, weighting) == None
  {
    assert Label(FastBurst) == "F" && Label(SlowBurst) == "S";
    assert Label(Impulse2000) == "I1" && Label(Impulse100) == "I2";
    assert "F" != "S" && "F" != "I1" && "F" != "I2" && "S" != "I1" && "S" != "I2" && "I1" != "I2";
  }

  /** PassFailMatchesTable for one detector. */
  lemma PassFailRow(slmType: int, diff: real, d: Detector)
    ensures PassFail(slmType, diff, Label(d)) == Judge(slmType, diff, d)
  {
    PassFailMatchesTable(slmType, diff, Label(d));
  }

  /** Every band holds the expected response itself, and a band never
      narrows from one meter type to the next. */
  lemma BandsWiden(d: Detector, t1: nat, t2: nat)
    requires t1 <= t2 < |Bands(d)|
    ensures Bands(d)[t1].Within(Bands(d)[t2])
    ensures Bands(d)[t2].Contains(0.0)
  {
  }

  /** A burst that passes for a meter type passes for every higher type in
      the table. */
  lemma PassFailWidens(t1: nat, t2: nat, diff: real, d: Detector)
    requires t1 <= t2 && PassFail(t2, diff, Label(d)).Some?
    ensures PassFail(t1, diff, Label(d)) == Some(Pass) ==> PassFail(t2, diff, Label(d)) == Some(Pass)
  {
    PassFailMatchesTable(t1, diff, Label(d));
    PassFailMatchesTable(t2, diff, Label(d));
    if t1 < |Bands(d)| && t2 < |Bands(d)| {
      BandsWiden(d, t1, t2);
    }
  }

  // ---------------------------------------------------------------------
  // The procedure
  // ---------------------------------------------------------------------

  /** The readings the operator enters: three per burst test. */
  datatype Readings = Readings(fast: seq<real>, slow: seq<real>, impulse2000: seq<real>, impulse100: seq<real>)
  {
    predicate Complete() {
      |fast| == 3 && |slow| == 3 && |impulse2000| == 3 && |impulse100| == 3
    }
  }

  /** What is printed per test: the average reported and the verdict. */
  datatype Outcome = Outcome(average: real, verdict: Option<Verdict>)

  datatype Report = Report(target: real, fast: Outcome, slow: Outcome, impulse2000: Outcome, impulse100: Outcome)

  /** target_slm: 4 dB below the top of the linear operating range. */
  function Target(maxLevel: real): real {
    maxLevel - 4.0
  }

  /** The procedure as written: the slow bursts are judged against the fast
      row of the table, and the 2 kHz impulse verdict is computed from
      `res_avg`, which still holds the slow average because it is not
      recomputed after the impulse readings. */
  function TimeWeightingAsWritten(slmType: int, maxLevel: real, r: Readings): (rep: Report)
    requires r.Complete()
    ensures rep.target == maxLevel - 4.0
    ensures rep.fast == Outcome(Average3(r.fast), Judge(slmType, Average3(r.fast) - rep.target, FastBurst))
    ensures rep.impulse100 == Outcome(Average3(r.impulse100), Judge(slmType, Average3(r.impulse100) - rep.target, Impulse100))
    ensures rep.slow == Outcome(Average3(r.slow), Judge(slmType, Average3(r.slow) - rep.target, FastBurst))
    ensures rep.impulse2000 == Outcome(Average3(r.slow), Judge(slmType, Average3(r.slow) - rep.target, Impulse2000))
  {
    var target := Target(maxLevel);
    var fastAvg := Average3(r.fast);
    var slowAvg := Average3(r.slow);
    var resAvg2 := Average3(r.impulse100);
    PassFailRow(slmType, fastAvg - target, FastBurst);
    PassFailRow(slmType, slowAvg - target, FastBurst);
    PassFailRow(slmType, slowAvg - target, Impulse2000);
    PassFailRow(slmType, resAvg2 - target, Impulse100);
    Report(target,
           Outcome(fastAvg, PassFail(slmType, fastAvg - target, "F")),
           Outcome(slowAvg, PassFail(slmType, slowAvg - target, "F")),
           Outcome(slowAvg, PassFail(slmType, slowAvg - target, "I1")),
           Outcome(resAvg2, PassFail(slmType, resAvg2 - target, "I2")))
  }

  /** The readings of one detector. */
  function ReadingsOf(r: Readings, d: Detector): seq<real> {
    match d
    case FastBurst => r.fast
    case SlowBurst => r.slow
    case Impulse2000 => r.impulse2000
    case Impulse100 => r.impulse100
  }

  function OutcomeOf(rep: Report, d: Detector): Outcome {
    match d
    case FastBurst => rep.fast
    case SlowBurst => rep.slow
    case Impulse2000 => rep.impulse2000
    case Impulse100 => rep.impulse100
  }

  /** One test: the average of its three readings judged against the
      detector's row of the table. */
  function Assess(slmType: int, target: real, readings: seq<real>, d: Detector): (o: Outcome)
    requires |readings| == 3
    ensures o == Outcome(Average3(readings), Judge(slmType, Average3(readings) - target, d))
  {
    var avg := Average3(readings);
    PassFailRow(slmType, avg - target, d);
    Outcome(avg, PassFail(slmType, avg - target, Label(d)))
  }

  /** The procedure as intended: every detector's own average is judged
      against its own row of the table. */
  function TimeWeighting(slmType: int, maxLevel: real, r: Readings): (rep: Report)
    requires r.Complete()
    ensures rep.target == maxLevel - 4.0
    ensures forall d: Detector ::
      OutcomeOf(rep, d) == Outcome(Average3(ReadingsOf(r, d)), Judge(slmType, Average3(ReadingsOf(r, d)) - rep.target, d))
  {
    var target := Target(maxLevel);
    var rep := Report(target,
                      Assess(slmType, target, r.fast, FastBurst),
                      Assess(slmType, target, r.slow, SlowBurst),
                      Assess(slmType, target, r.impulse2000, Impulse2000),
                      Assess(slmType, target, r.impulse100, Impulse100));
    EveryDetectorOwnRow(slmType, r, rep);
    rep
  }

  /** A report whose four outcomes each judge their own readings on their
      own row has that form for every detector. */
  lemma EveryDetectorOwnRow(slmType: int, r: Readings, rep: Report)
    requires r.Complete()
    requires rep.fast == Assess(slmType, rep.target, r.fast, FastBurst)
    requires rep.slow == Assess(slmType, rep.target, r.slow, SlowBurst)
    requires rep.impulse2000 == Assess(slmType, rep.target, r.impulse2000, Impulse2000)
    requires rep.impulse100 == Assess(slmType, rep.target, r.impulse100, Impulse100)
    ensures forall d: Detector ::
      OutcomeOf(rep, d) == Outcome(Average3(ReadingsOf(r, d)), Judge(slmType, Average3(ReadingsOf(r, d)) - rep.target, d))
  {
    forall d: Detector
      ensures OutcomeOf(rep, d) == Outcome(Average3(ReadingsOf(r, d)), Judge(slmType, Average3(ReadingsOf(r, d)) - rep.target, d))
    {
      assert OutcomeOf(rep, d) == Assess(slmType, rep.target, ReadingsOf(r, d), d);
    }
  }

  /** In the intended procedure a meter whose three readings of every burst
      sit exactly on the expected response passes every test its type has a
      row for. */
  lemma OnResponsePasses(slmType: int, maxLevel: real, r: Readings)
    requires r.Complete() && 0 <= slmType <= 2
    requires forall d: Detector, k :: 0 <= k < 3 ==> ReadingsOf(r, d)[k] == maxLevel - 4.0 + Offset(d)
    ensures forall d: Detector :: OutcomeOf(TimeWeighting(slmType, maxLevel, r), d).verdict == Some(Pass)
  {
    forall d: Detector
      ensures OutcomeOf(TimeWeighting(slmType, maxLevel, r), d).verdict == Some(Pass)
    {
      var e := maxLevel - 4.0 + Offset(d);
      assert ReadingsOf(r, d) == [e, e, e];
      assert Average3(ReadingsOf(r, d)) == e;
      BandsWiden(d, slmType, slmType);
    }
  }

  /** The procedure as written and as intended differ only in the slow and
      2 kHz impulse outcomes. */
  lemma AsWrittenDiffersOnlyThere(slmType: int, maxLevel: real, r: Readings)
    requires r.Complete()
    ensures var w := TimeWeightingAsWritten(slmType, maxLevel, r);
      w == TimeWeighting(slmType, maxLevel, r).(slow := w.slow, impulse2000 := w.impulse2000)
  {
    var w := TimeWeightingAsWritten(slmType, maxLevel, r);
    var t := TimeWeighting(slmType, maxLevel, r);
    assert OutcomeOf(t, FastBurst) == w.fast;
    assert OutcomeOf(t, Impulse100) == w.impulse100;
  }

  /** As written, the 2 kHz impulse verdict does not look at the 2 kHz
      impulse readings at all. */
  lemma AsWrittenIgnoresImpulse2000(slmType: int, maxLevel: real, r: Readings, other: seq<real>)
    requires r.Complete() && |other| == 3
    ensures TimeWeightingAsWritten(slmType, maxLevel, r.(impulse2000 := other)).impulse2000
         == TimeWeightingAsWritten(slmType, maxLevel, r).impulse2000
  {
  }

  /** A type 1 meter with a 100 dB top of range whose slow bursts read the
      expected 100.1 dB fails the slow test as written (its remainder after
      the fast offset is 3.1 dB) and passes it as intended. */
  lemma SlowJudgedAsFast()
    ensures var r := Readings([97.0, 97.0, 97.0], [100.1, 100.1, 100.1], [104.8, 104.8, 104.8], [98.7, 98.7, 98.7]);
      && TimeWeightingAsWritten(1, 100.0, r).slow.verdict == Some(Fail)
      && TimeWeighting(1, 100.0, r).slow.verdict == Some(Pass)
  {
    var r := Readings([97.0, 97.0, 97.0], [100.1, 100.1, 100.1], [104.8, 104.8, 104.8], [98.7, 98.7, 98.7]);
    assert Average3(r.slow) == 100.1;
    PassFailMatchesTable(1, 4.1, "S");
    assert PassFail(1, 100.1 - 96.0, "F") == Some(Fail);
  }

  /** The same meter's 2 kHz impulse bursts read the expected 104.8 dB: as
      written the verdict is taken from the slow average, 4.7 dB short of
      the impulse response, and fails; as intended it passes. */
  lemma ImpulseJudgedOnSlowAverage()
    ensures var r := Readings([97.0, 97.0, 97.0], [100.1, 100.1, 100.1], [104.8, 104.8, 104.8], [98.7, 98.7, 98.7]);
      && TimeWeightingAsWritten(1, 100.0, r).impulse2000.verdict == Some(Fail)
      && TimeWeighting(1, 100.0, r).impulse2000.verdict == Some(Pass)
  {
    var r := Readings([97.0, 97.0, 97.0], [100.1, 100.1, 100.1], [104.8, 104.8, 104.8], [98.7, 98.7, 98.7]);
    assert Average3(r.slow) == 100.1;
    assert Average3(r.impulse2000) == 104.8;
    assert PassFail(1, 100.1 - 96.0, "I1") == Some(Fail);
    assert PassFail(1, 104.8 - 96.0, "I1") == Some(Pass);
  }
}
