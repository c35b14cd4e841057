/** Classification rules shared by the sound level meter procedures: the
    linearity / time-weighting class rule, and the frequency-weighting
    corrections and tolerance limits of IEC 61672-1:2002 Table 2. */
module Tolerance {
  import opened Wrappers
  import opened Decimal

  /** The class printed in a result row: 1, 2, or 666 for out of tolerance. */
  datatype Grade = Class1 | Class2 | Foul {
    function Code(): int {
      match this
      case Class1 => 1
      case Class2 => 2
      case Foul => 666
    }

    /** Position in the order Class1 < Class2 < Foul (better to worse). */
    function Rank(): nat {
      match this
      case Class1 => 0
      case Class2 => 1
      case Foul => 2
    }
  }

  // ---------------------------------------------------------------------
  // Linearity and time-weighting rule
  // ---------------------------------------------------------------------

  /** Uncertainty every linearity, level-range and time-weighting row carries. */
  const LinearityUncertainty: real := 0.2

  /** `linearity_tolerance_limits`: |deviation| + uncertainty against 1.1 and 1.4 dB. */
  function LinearityGrade(deviation: real, uncertainty: real): (g: Grade)
    ensures g == Class1 <==> Abs(deviation) + uncertainty <= 1.1
    ensures g == Class2 <==> 1.1 < Abs(deviation) + uncertainty <= 1.4
    ensures g == Foul <==> 1.4 < Abs(deviation) + uncertainty
  {
    var total := Abs(deviation) + uncertainty;
    if total <= 1.1 then Class1 else if total <= 1.4 then Class2 else Foul
  }

  /** The class depends only on |deviation| and never improves as it grows. */
  lemma LinearityGradeMonotone(d1: real, d2: real, uncertainty: real)
    requires Abs(d1) <= Abs(d2)
    ensures LinearityGrade(d1, uncertainty).Rank() <= LinearityGrade(d2, uncertainty).Rank()
    ensures Abs(d1) == Abs(d2) ==> LinearityGrade(d1, uncertainty) == LinearityGrade(d2, uncertainty)
  {
  }

  lemma LinearityGradeExamples()
    ensures LinearityGrade(0.0, LinearityUncertainty) == Class1
    ensures LinearityGrade(0.9, LinearityUncertainty) == Class1
    ensures LinearityGrade(1.0, LinearityUncertainty) == Class2
    ensures LinearityGrade(1.3, LinearityUncertainty) == Foul
    ensures LinearityGrade(-5.0, LinearityUncertainty) == Foul
  {
  }

  // ---------------------------------------------------------------------
  // Frequency weighting (IEC 61672-1:2002, Table 2)
  // ---------------------------------------------------------------------

  datatype Weighting = A | C | Z

  datatype WeightingCorrections = WeightingCorrections(a: real, c: real, z: real) {
    function For(w: Weighting): real {
      match w
      case A => a
      case C => c
      case Z => z
    }
  }

  datatype Bounds = Bounds(min: real, max: real) {
    predicate Contains(x: real) {
      min <= x <= max
    }
  }

  /** Class-1 and class-2 deviation bounds at one frequency; a class-2 minimum
      of -1000 dB stands for "no lower limit". */
  datatype Limits = Limits(class1: Bounds, class2: Bounds)

  /** Uncertainty budget added to every frequency-weighting deviation. */
  const FrequencyWeightingUncertainty: real := 0.21

  const StandardFrequencyList: seq<real> :=
    [31.5, 63.0, 125.0, 250.0, 500.0, 1000.0, 2000.0, 4000.0, 8000.0, 12500.0, 16000.0]

  const StandardFrequencies: set<real> := set f | f in StandardFrequencyList

  /** Expected response relative to 1 kHz, per frequency and weighting. */
  const FrequencyWeightingTable: map<real, WeightingCorrections> := map[
    1000.0 := WeightingCorrections(0.0, 0.0, 0.0),
    2000.0 := WeightingCorrections(1.2, -0.2, 0.0),
    4000.0 := WeightingCorrections(1.0, -0.8, 0.0),
    8000.0 := WeightingCorrections(-1.1, -3.0, 0.0),
    12500.0 := WeightingCorrections(-4.3, -6.2, 0.0),
    16000.0 := WeightingCorrections(-6.6, -8.5, 0.0),
    31.5 := WeightingCorrections(-39.4, -3.0, 0.0),
    63.0 := WeightingCorrections(-26.2, -0.8, 0.0),
    125.0 := WeightingCorrections(-16.1, -0.2, 0.0),
    250.0 := WeightingCorrections(-8.6, 0.0, 0.0),
    500.0 := WeightingCorrections(-3.2, 0.0, 0.0)
  ]

  const ToleranceLimits: map<real, Limits> := map[
    1000.0 := Limits(Bounds(-1.1, 1.1), Bounds(-1.4, 1.4)),
    2000.0 := Limits(Bounds(-1.6, 1.6), Bounds(-2.6, 2.6)),
    4000.0 := Limits(Bounds(-1.6, 1.6), Bounds(-3.6, 3.6)),
    8000.0 := Limits(Bounds(-3.1, 2.1), Bounds(-5.6, 5.6)),
    12500.0 := Limits(Bounds(-6.0, 3.0), Bounds(-1000.0, 6.0)),
    16000.0 := Limits(Bounds(-17.0, 3.5), Bounds(-1000.0, 6.0)),
    31.5 := Limits(Bounds(-2.0, 2.0), Bounds(-3.5, 3.5)),
    63.0 := Limits(Bounds(-1.5, 1.5), Bounds(-2.5, 2.5)),
    125.0 := Limits(Bounds(-1.5, 1.5), Bounds(-2.0, 2.0)),
    250.0 := Limits(Bounds(-1.4, 1.4), Bounds(-1.9, 1.9)),
    500.0 := Limits(Bounds(-1.4, 1.4), Bounds(-1.9, 1.9))
  ]

  /** The class-1 interval lies inside the class-2 interval, and both contain
      [-1.1, 1.1], the tightest class-1 interval (at 1 kHz). */
  predicate Nested(l: Limits) {
    && l.class2.min <= l.class1.min <= -1.1
    && 1.1 <= l.class1.max <= l.class2.max
  }

  /** table_freq_weightings[f][w]; None is the KeyError of an unlisted frequency. */
  function Correction(f: real, w: Weighting): (r: Option<real>)
    ensures r.Some? <==> f in StandardFrequencies
    ensures r.Some? && w == Z ==> r.value == 0.0
  {
    if f in FrequencyWeightingTable then Some(FrequencyWeightingTable[f].For(w)) else None
  }

  /** tolerance_limits[f]; None is the KeyError of an unlisted frequency. */
  function LimitsAt(f: real): (r: Option<Limits>)
    ensures r.Some? <==> f in StandardFrequencies
    ensures r.Some? ==> Nested(r.value)
  {
    if f in ToleranceLimits then Some(ToleranceLimits[f]) else None
  }

  /** Both tables list the same frequencies. */
  lemma TablesCoverStandardFrequencies()
    ensures FrequencyWeightingTable.Keys == StandardFrequencies
    ensures ToleranceLimits.Keys == StandardFrequencies
  {
  }

  /** There are eleven of them, 31.5 Hz to 16 kHz, listed in increasing order. */
  lemma ElevenStandardFrequencies()
    ensures |StandardFrequencyList| == 11
    ensures forall i, j :: 0 <= i < j < |StandardFrequencyList| ==> StandardFrequencyList[i] < StandardFrequencyList[j]
    ensures forall f :: f in StandardFrequencies <==> f in StandardFrequencyList
    ensures StandardFrequencyList[0] == 31.5 && StandardFrequencyList[10] == 16000.0
  {
  }

  /** The deviation moved 0.21 dB away from zero, keeping its sign; zero
      counts as positive. */
  function PushAway(d: real): (r: real)
    ensures Abs(r) == Abs(d) + FrequencyWeightingUncertainty
    ensures r > 0.0 <==> d >= 0.0
  {
    if d >= 0.0 then d + FrequencyWeightingUncertainty else d - FrequencyWeightingUncertainty
  }

  /** Class 1 inside the class-1 bounds, else class 2 inside the class-2
      bounds, else 666; all bounds inclusive. */
  function FrequencyGrade(adjusted: real, l: Limits): (g: Grade)
    ensures g == Class1 <==> l.class1.Contains(adjusted)
    ensures g == Class2 <==> !l.class1.Contains(adjusted) && l.class2.Contains(adjusted)
    ensures g == Foul <==> !l.class1.Contains(adjusted) && !l.class2.Contains(adjusted)
  {
    if l.class1.Contains(adjusted) then Class1
    else if l.class2.Contains(adjusted) then Class2
    else Foul
  }

  /** On either side of zero, a larger deviation never gets a better class. */
  lemma FrequencyGradeMonotone(d1: real, d2: real, l: Limits)
    requires Nested(l)
    requires 0.0 <= d1 <= d2 || d2 <= d1 < 0.0
    ensures FrequencyGrade(PushAway(d1), l).Rank() <= FrequencyGrade(PushAway(d2), l).Rank()
  {
  }

  /** A class-1 result is inside the class-2 bounds too (nested regions). */
  lemma Class1WithinClass2(f: real, x: real)
    requires f in StandardFrequencies
    requires LimitsAt(f).value.class1.Contains(x)
    ensures LimitsAt(f).value.class2.Contains(x)
  {
  }
}
