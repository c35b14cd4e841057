/** Tone-burst response (IEC 61672-3 clause 16, `toneburst_response`) and
    peak C sound level (clause 17, `peak_C_sound_level`): three meter
    readings per burst, averaged and compared with the expected level. */
module Bursts {
  import opened Decimal
  import opened Tolerance

  /** The mean of the three readings taken per burst. */
  function Average3(readings: seq<real>): (avg: real)
    requires |readings| == 3
    ensures Min3(readings) <= avg <= Max3(readings)
  {
    (readings[0] + readings[1] + readings[2]) / 3.0
  }

  function Min3(r: seq<real>): real
    requires |r| == 3
  {
    var m := if r[0] <= r[1] then r[0] else r[1];
    if m <= r[2] then m else r[2]
  }

  function Max3(r: seq<real>): real
    requires |r| == 3
  {
    var m := if r[0] >= r[1] then r[0] else r[1];
    if m >= r[2] then m else r[2]
  }

  // ---------------------------------------------------------------------
  // Tone-burst response
  // ---------------------------------------------------------------------

  /** One burst: delay (s), cycles, expected response re the steady level
      (IEC 61672-1 Table 3) and its tolerance interval. */
  datatype BurstOption = BurstOption(delay: real, cycles: nat, offset: real, minTolerance: real, maxTolerance: real)

  datatype Setting = FastMax | SlowMax | Equivalent

  const LongBurst: BurstOption := BurstOption(0.2, 800, -1.0, -0.8, 0.8)
  const MediumBurst: BurstOption := BurstOption(0.002, 8, -18.0, -1.8, 1.3)
  const ShortBurst: BurstOption := BurstOption(0.00025, 1, -27.0, -3.3, 1.3)

  /** The bursts of each setting; the slow setting omits the single-cycle burst. */
  function Bursts(s: Setting): seq<BurstOption> {
    match s
    case FastMax => [LongBurst, MediumBurst, ShortBurst]
    case SlowMax => [LongBurst, MediumBurst]
    case Equivalent => [LongBurst, MediumBurst, ShortBurst]
  }

  const Settings: seq<Setting> := [FastMax, SlowMax, Equivalent]

  /** Every tolerance interval contains 0, and the shorter the burst the
      wider the interval below. */
  lemma BurstTable()
    ensures forall s: Setting, k :: 0 <= k < |Bursts(s)| ==>
      Bursts(s)[k].minTolerance < 0.0 < Bursts(s)[k].maxTolerance
    ensures |Bursts(FastMax)| == 3 && |Bursts(SlowMax)| == 2 && |Bursts(Equivalent)| == 3
    ensures Bursts(SlowMax) == Bursts(FastMax)[..2]
    ensures LongBurst.minTolerance > MediumBurst.minTolerance > ShortBurst.minTolerance
  {
  }

  /** Class 1 inside the inclusive tolerance interval, otherwise class 2. */
  function BurstGrade(deviation: real, opt: BurstOption): (g: Grade)
    ensures g == Class1 <==> opt.minTolerance <= deviation <= opt.maxTolerance
    ensures g == Class1 || g == Class2
  {
    if opt.minTolerance <= deviation <= opt.maxTolerance then Class1 else Class2
  }

  /** delay, cycles, offset, expected, the three readings, average,
      deviation, uncertainty, class. */
  datatype BurstRow = BurstRow(
    option: BurstOption,
    expected: real,
    readings: seq<real>,
    average: real,
    deviation: real,
    uncertainty: real,
    grade: Grade)

  /** The aim is 3 dB below the upper limit of the reference level range. */
  function BurstAim(upperRange: real): real {
    upperRange - 3.0
  }

  function MeasureBurst(upperRange: real, opt: BurstOption, readings: seq<real>): (row: BurstRow)
    requires |readings| == 3
    ensures row.expected == upperRange - 3.0 + opt.offset
    ensures row.deviation == row.average - row.expected && row.average == Average3(readings)
    ensures row.grade == Class1 <==> opt.minTolerance <= row.average - (upperRange - 3.0 + opt.offset) <= opt.maxTolerance
    ensures row.uncertainty == 0.2 && row.readings == readings
  {
    var expected := BurstAim(upperRange) + opt.offset;
    var avg := Average3(readings);
    var deviation := avg - expected;
    BurstRow(opt, expected, readings, avg, deviation, 0.2, BurstGrade(deviation, opt))
  }

  /** The rows of one setting, `readings[k]` being the three readings of its
      k-th burst. */
  function ToneburstSetting(upperRange: real, s: Setting, readings: seq<seq<real>>): (rows: seq<BurstRow>)
    requires |readings| == |Bursts(s)|
    requires forall k :: 0 <= k < |readings| ==> |readings[k]| == 3
    ensures |rows| == |Bursts(s)|
    ensures forall k :: 0 <= k < |rows| ==> rows[k] == MeasureBurst(upperRange, Bursts(s)[k], readings[k])
  {
    seq(|readings|, k requires 0 <= k < |readings| => MeasureBurst(upperRange, Bursts(s)[k], readings[k]))
  }

  /** Readings all exactly on the expected level are class 1 for every burst. */
  lemma BurstOnTargetIsClass1(upperRange: real, s: Setting, k: nat)
    requires k < |Bursts(s)|
    ensures var opt := Bursts(s)[k];
      var e := upperRange - 3.0 + opt.offset;
      MeasureBurst(upperRange, opt, [e, e, e]).grade == Class1
  {
    BurstTable();
  }

  // ---------------------------------------------------------------------
  // Peak C sound level
  // ---------------------------------------------------------------------

  /** The three peak tests: one cycle at 8 kHz, and positive and negative
      half cycles at 500 Hz. */
  datatype PeakStep = OneCycle8k | PositiveHalf500 | NegativeHalf500

  /** LCpeak - LC, the expected peak excess over the steady level. */
  function PeakOffset(step: PeakStep): real {
    match step
    case OneCycle8k => 3.4
    case PositiveHalf500 => 2.4
    case NegativeHalf500 => 2.4
  }

  /** Half-width of the class-1 band (exclusive). */
  function PeakLimit(step: PeakStep): real {
    match step
    case OneCycle8k => 1.4
    case PositiveHalf500 => 2.4
    case NegativeHalf500 => 2.4
  }

  /** Class 1 strictly inside (-limit, limit), otherwise class 2. */
  function PeakGrade(deviation: real, step: PeakStep): (g: Grade)
    ensures g == Class1 <==> Abs(deviation) < PeakLimit(step)
    ensures g == Class1 || g == Class2
  {
    if -PeakLimit(step) < deviation < PeakLimit(step) then Class1 else Class2
  }

  /** label, offset, expected, the three readings, average, deviation,
      uncertainty, class. */
  datatype PeakRow = PeakRow(
    step: PeakStep,
    offset: real,
    expected: real,
    readings: seq<real>,
    average: real,
    deviation: real,
    uncertainty: real,
    grade: Grade)

  /** The steady level is tuned 8 dB below the upper limit of the least
      sensitive level range. */
  function PeakTarget(upperRange: real): real {
    upperRange - 8.0
  }

  function MeasurePeak(upperRange: real, step: PeakStep, readings: seq<real>): (row: PeakRow)
    requires |readings| == 3
    ensures row.expected == upperRange - 8.0 + PeakOffset(step)
    ensures row.average == Average3(readings) && row.deviation == row.average - row.expected
    ensures row.grade == Class1 <==> Abs(row.average - (upperRange - 8.0 + PeakOffset(step))) < PeakLimit(step)
    ensures row.uncertainty == 0.2 && row.readings == readings
  {
    var expected := PeakTarget(upperRange) + PeakOffset(step);
    var avg := Average3(readings);
    var deviation := avg - expected;
    PeakRow(step, PeakOffset(step), expected, readings, avg, deviation, 0.2, PeakGrade(deviation, step))
  }

  /** The three peak rows in order. */
  function PeakC(upperRange: real, readings: seq<seq<real>>): (rows: seq<PeakRow>)
    requires |readings| == 3 && forall k :: 0 <= k < 3 ==> |readings[k]| == 3
    ensures |rows| == 3
    ensures rows[0] == MeasurePeak(upperRange, OneCycle8k, readings[0])
    ensures rows[1] == MeasurePeak(upperRange, PositiveHalf500, readings[1])
    ensures rows[2] == MeasurePeak(upperRange, NegativeHalf500, readings[2])
  {
    [MeasurePeak(upperRange, OneCycle8k, readings[0]),
     MeasurePeak(upperRange, PositiveHalf500, readings[1]),
     MeasurePeak(upperRange, NegativeHalf500, readings[2])]
  }

  /** The peak bands are open where the tone-burst bands are closed: a
      deviation of exactly 1.4 dB is class 2 for the 8 kHz cycle. */
  lemma PeakBoundaryIsClass2()
    ensures PeakGrade(1.4, OneCycle8k) == Class2
    ensures PeakGrade(-1.4, OneCycle8k) == Class2
    ensures PeakGrade(1.39, OneCycle8k) == Class1
    ensures PeakGrade(2.4, PositiveHalf500) == Class2
    ensures BurstGrade(0.8, LongBurst) == Class1
  {
  }

  /** Widening the band never demotes: a class-1 half-cycle result has a
      class-1 deviation for the wider half-cycle band too. */
  lemma PeakBandsNested(d: real)
    ensures PeakGrade(d, OneCycle8k) == Class1 ==> PeakGrade(d, PositiveHalf500) == Class1
    ensures PeakGrade(d, PositiveHalf500) == PeakGrade(d, NegativeHalf500)
  {
  }
}
