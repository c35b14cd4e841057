/** Bookkeeping of the microphone calibration (`MicrophoneConfiguration`):
    the attenuator uncertainty and error tables keyed on the leading digit
    of the attenuation, the environment range checks, the stability check,
    the loop that balances the insert voltage against the microphone
    voltage with the attenuator, and the uncertainty budget. Instrument
    readings, log10 and the square root are inputs. */
module Microphone {
  import opened Wrappers
  import opened Decimal
  import El100

  /** Why a lookup raised: int() on a non-digit (ValueError), a None from a
      table used in arithmetic (TypeError), or a mean over no measurements
      (ZeroDivisionError). */
  datatype LookupError = NotANumber(found: char) | NoTableEntry(digit: nat) | NoMeasurements

  // ---------------------------------------------------------------------
  // Attenuator uncertainty and error
  // ---------------------------------------------------------------------

  lemma FormatLeading(h: int)
    ensures 0 <= h <= 9999 ==> El100.Format(h)[0] == El100.DigitChar(h / 1000)
  {
    if 0 <= h <= 9999 {
      El100.FormatInRange(h);
    }
  }

  /** int(("%05.2f" % value)[0]) for an attenuation of h hundredths: the tens
      digit on the attenuator's scale; a negative value starts with '-'. */
  function LeadingDigit(h: int): (r: Result<nat, LookupError>)
    ensures r.Err? <==> h < 0
    ensures r.Err? ==> r.error == NotANumber('-')
    ensures r.Ok? ==> r.value < 10
    ensures 0 <= h <= 9999 ==> r == Ok(h / 1000)
  {
    FormatLeading(h);
    var s := El100.Format(h);
    assert h >= 0 ==> s[..|s| - 3][0] == s[0];
    if El100.IsDigit(s[0]) then Ok(El100.DigitValue(s[0])) else Err(NotANumber(s[0]))
  }

  /** The branches of `attenuator_uncertainty`, by leading digit. */
  function UncertaintyForDigit(d: nat): (u: Option<real>)
    ensures u.Some? <==> d <= 5
    ensures u.Some? ==> u.value == 0.01 * (d + 1) as real
  {
    if d == 0 then Some(0.01)
    else if d == 1 then Some(0.02)
    else if d == 2 then Some(0.03)
    else if d == 3 then Some(0.04)
    else if d == 4 then Some(0.05)
    else if d == 5 then Some(0.06)
    else None
  }

  /** The branches of `attenuator_error`, by leading digit: 0.004 dB for the
      least significant digit, plus a share that depends on the leading one. */
  function ErrorForDigit(d: nat): (e: Option<real>)
    ensures e.Some? <==> d <= 6
    ensures d == 0 ==> e == Some(0.004)
    ensures 1 <= d <= 2 ==> e == Some(0.008)
    ensures 3 <= d <= 5 ==> e == Some(0.009)
    ensures d == 6 ==> e == Some(0.010)
  {
    if d == 0 then Some(0.004)
    else if d == 1 || d == 2 then Some(0.004 + 0.004)
    else if d == 3 then Some(0.005 + 0.004)
    else if d == 4 || d == 5 then Some(0.005 + 0.004)
    else if d == 6 then Some(0.006 + 0.004)
    else None
  }

  /** The error never falls as the leading digit rises. */
  lemma ErrorMonotone(d1: nat, d2: nat)
    requires d1 <= d2 && ErrorForDigit(d2).Some?
    ensures ErrorForDigit(d1).Some? && ErrorForDigit(d1).value <= ErrorForDigit(d2).value
  {
  }

  /** Wherever the uncertainty is defined the error is too, and never larger. */
  lemma ErrorWithinUncertainty(d: nat)
    requires UncertaintyForDigit(d).Some?
    ensures ErrorForDigit(d).Some? && ErrorForDigit(d).value <= UncertaintyForDigit(d).value
  {
  }

  function AttenuatorUncertainty(h: int): (r: Result<Option<real>, LookupError>)
    ensures r.Err? <==> h < 0
    ensures 0 <= h < 6000 ==> r == Ok(Some(0.01 * (h / 1000 + 1) as real))
    ensures 6000 <= h <= 9999 ==> r == Ok(None)
  {
    var d :- LeadingDigit(h);
    Ok(UncertaintyForDigit(d))
  }

  function AttenuatorError(h: int): (r: Result<Option<real>, LookupError>)
    ensures r.Err? <==> h < 0
    ensures 0 <= h < 7000 ==> r.Ok? && r.value.Some? && r.value == ErrorForDigit(h / 1000)
    ensures 7000 <= h <= 9999 ==> r == Ok(None)
  {
    var d :- LeadingDigit(h);
    Ok(ErrorForDigit(d))
  }

  // ---------------------------------------------------------------------
  // Environment
  // ---------------------------------------------------------------------

  datatype Quantity = Temperature | Humidity | Pressure | PolarisingVoltage

  /** Temperature (degrees C), relative humidity (%), static pressure and
      polarising voltage (V). */
  datatype Conditions = Conditions(temperature: real, humidity: real, pressure: real, polarisingVoltage: real)
  {
    function Value(q: Quantity): real {
      match q
      case Temperature => temperature
      case Humidity => humidity
      case Pressure => pressure
      case PolarisingVoltage => polarisingVoltage
    }
  }

  /** The inclusive bounds the `check_*` methods test. */
  function Lower(q: Quantity): real {
    match q
    case Temperature => 20.0
    case Humidity => 30.0
    case Pressure => 1003.0
    case PolarisingVoltage => 198.0
  }

  function Upper(q: Quantity): real {
    match q
    case Temperature => 26.0
    case Humidity => 70.0
    case Pressure => 1023.0
    case PolarisingVoltage => 202.0
  }

  /** The preferred ranges as the warnings word them: 23 +- 3 degrees C,
      50 +- 20 %, 1013 +- 10 and 200 +- 2 V. */
  function Nominal(q: Quantity): real {
    match q
    case Temperature => 23.0
    case Humidity => 50.0
    case Pressure => 1013.0
    case PolarisingVoltage => 200.0
  }

  function Spread(q: Quantity): real {
    match q
    case Temperature => 3.0
    case Humidity => 20.0
    case Pressure => 10.0
    case PolarisingVoltage => 2.0
  }

  /** A check shows its warning when the value is not within the bounds. */
  predicate Warns(q: Quantity, x: real) {
    !(Lower(q) <= x <= Upper(q))
  }

  /** The bounds checked are exactly the preferred ranges the warnings state. */
  lemma WarnsOutsidePreferredRange(q: Quantity, x: real)
    ensures Warns(q, x) <==> Abs(x - Nominal(q)) > Spread(q)
  {
  }

  /** The warnings one round of checks shows, in the order the checks run. */
  function Warnings(c: Conditions): (ws: seq<Quantity>)
    ensures forall q :: q in ws <==> Warns(q, c.Value(q))
    ensures forall i, j :: 0 <= i < j < |ws| ==> ws[i] != ws[j]
    ensures Warns(Temperature, c.temperature) ==> |ws| > 0 && ws[0] == Temperature
  {
    var ws := (if Warns(Temperature, c.temperature) then [Temperature] else [])
      + (if Warns(Humidity, c.humidity) then [Humidity] else [])
      + (if Warns(Pressure, c.pressure) then [Pressure] else [])
      + (if Warns(PolarisingVoltage, c.polarisingVoltage) then [PolarisingVoltage] else []);
    WarningsCover(c, ws);
    ws
  }

  lemma WarningsCover(c: Conditions, ws: seq<Quantity>)
    requires ws == (if Warns(Temperature, c.temperature) then [Temperature] else [])
      + (if Warns(Humidity, c.humidity) then [Humidity] else [])
      + (if Warns(Pressure, c.pressure) then [Pressure] else [])
      + (if Warns(PolarisingVoltage, c.polarisingVoltage) then [PolarisingVoltage] else [])
    ensures forall q :: q in ws <==> Warns(q, c.Value(q))
  {
    forall q ensures q in ws <==> Warns(q, c.Value(q)) {
      match q
      case Temperature =>
      case Humidity =>
      case Pressure =>
      case PolarisingVoltage =>
    }
  }

  /** The environment reported: each field the mean of its initial and final
      readings. The final temperature and humidity are not asked for: they
      are the initial ones again. */
  function Environment(initial: Conditions, finalPressure: real, finalVoltage: real): (env: Conditions)
    ensures env.temperature == initial.temperature && env.humidity == initial.humidity
    ensures Abs(env.pressure - initial.pressure) == Abs(env.pressure - finalPressure)
    ensures Abs(env.polarisingVoltage - initial.polarisingVoltage) == Abs(env.polarisingVoltage - finalVoltage)
    ensures initial.pressure <= finalPressure ==> initial.pressure <= env.pressure <= finalPressure
    ensures initial.polarisingVoltage <= finalVoltage ==> initial.polarisingVoltage <= env.polarisingVoltage <= finalVoltage
  {
    var final := Conditions(initial.temperature, initial.humidity, finalPressure, finalVoltage);
    Conditions(
      (initial.temperature + final.temperature) / 2.0,
      (initial.humidity + final.humidity) / 2.0,
      (initial.pressure + final.pressure) / 2.0,
      (initial.polarisingVoltage + final.polarisingVoltage) / 2.0)
  }

  /** Since the final temperature and humidity repeat the initial ones, the
      second round of checks warns about them exactly when the first did. */
  lemma FinalChecksRepeatInitial(initial: Conditions, finalPressure: real, finalVoltage: real)
    ensures var final := Conditions(initial.temperature, initial.humidity, finalPressure, finalVoltage);
      && (Temperature in Warnings(final) <==> Temperature in Warnings(initial))
      && (Humidity in Warnings(final) <==> Humidity in Warnings(initial))
  {
  }

  // ---------------------------------------------------------------------
  // Stability
  // ---------------------------------------------------------------------

  datatype StabilityError = NoReadings | ZeroFirstReading

  /** `_check_stability`: whether the run is aborted, by the ratio of the
      last reading to the first. An empty list fails at values[-1] and a
      zero first reading at the division. */
  function Unstable(values: seq<real>): (r: Result<bool, StabilityError>)
    ensures r.Err? <==> |values| == 0 || values[0] == 0.0
    ensures r.Ok? && values[0] > 0.0 ==> (r.value <==> values[|values| - 1] < 0.7 * values[0])
    ensures r.Ok? && values[0] < 0.0 ==> (r.value <==> values[|values| - 1] > 0.7 * values[0])
  {
    if |values| == 0 then Err(NoReadings)
    else if values[0] == 0.0 then Err(ZeroFirstReading)
    else
      RatioBelow(values[|values| - 1], values[0]);
      Ok(values[|values| - 1] / values[0] < 0.7)
  }

  lemma RatioBelow(x: real, y: real)
    requires y != 0.0
    ensures y > 0.0 ==> (x / y < 0.7 <==> x < 0.7 * y)
    ensures y < 0.0 ==> (x / y < 0.7 <==> x > 0.7 * y)
  {
    assert x / y * y == x;
  }

  /** Only the first and the last reading matter. */
  lemma StabilityEndpoints(a: seq<real>, b: seq<real>)
    requires |a| > 0 && |b| > 0
    requires a[0] == b[0] && a[|a| - 1] == b[|b| - 1]
    ensures Unstable(a) == Unstable(b)
  {
  }

  // ---------------------------------------------------------------------
  // Balancing the insert voltage
  // ---------------------------------------------------------------------

  /** atten = 100 - sensitivity - 94, the first attenuation tried. */
  function StartAttenuation(sensitivity: real): real {
    100.0 - sensitivity - 94.0
  }

  /** An error of at most 0.005 dB counts as a good reading. */
  predicate Good(e: real) {
    Abs(e) <= 0.005
  }

  /** `el100.set("%05.2f" % atten)` at the top of every pass, the text
      passed as it is. A negative attenuation, even one that rounds to
      zero, formats with a leading '-' that int() rejects; otherwise the
      text is the attenuation rounded to hundredths, which `set` accepts
      from 00.00 to 99.99 (and from 10000.00 on, where the text again
      starts with five digits). */
  function SetAttenuation(atten: real): (r: Result<string, El100.SetError>)
    ensures atten < 0.0 ==> r == Err(El100.NotADigit(0, '-'))
    ensures atten >= 0.0 ==>
      var h := RoundHalfAway(atten * 100.0);
      (r.Ok? <==> h <= 9999 || h >= 1000000)
      && (h <= 9999 ==> El100.DecodeCommand(r.value) == Some(h))
  {
    if atten < 0.0 then Err(El100.NotADigit(0, '-'))
    else
      var h := RoundHalfAway(atten * 100.0);
      SetHundredths(h);
      El100.Set(El100.Text(El100.Format(h)))
  }

  lemma SetHundredths(h: int)
    ensures El100.Set(El100.Text(El100.Format(h))) == El100.Set(El100.Number(h))
    ensures El100.Set(El100.Number(h)).Ok? <==> (0 <= h <= 9999 || h >= 1000000)
    ensures 0 <= h <= 9999 ==> El100.DecodeCommand(El100.Set(El100.Number(h)).value) == Some(h)
  {
    El100.SetAccepts(h);
    if 0 <= h <= 9999 {
      El100.SetRoundTrip(h);
    }
  }

  predicate Settable(atten: real) {
    SetAttenuation(atten).Ok?
  }

  /** How the loop stands: finished after `consumed` readings, stopped by
      `set` raising after `consumed` readings, or still running with `good`
      good readings when the readings run out. */
  datatype Balance =
    | Settled(attenuation: real, consumed: nat)
    | OffScale(attenuation: real, consumed: nat)
    | Unsettled(attenuation: real, good: nat)

  function Later(b: Balance): Balance {
    match b
    case Settled(a, n) => Settled(a, n + 1)
    case OffScale(a, n) => OffScale(a, n + 1)
    case Unsettled(a, g) => Unsettled(a, g)
  }

  /** The loop as a fold over the measured errors (20 log10(Vmic/Vins), of
      which it takes the absolute value). Each pass first writes the
      attenuation to the attenuator, which raises off the scale; then a
      good reading counts, and the second one ends the loop, while any
      other reading lowers the attenuation by its error. The count is never
      reset. */
  function Converge(atten: real, good: nat, errors: seq<real>): (b: Balance)
    requires good < 2
    ensures b.attenuation <= atten
    ensures b.Settled? ==> 1 <= b.consumed <= |errors|
    ensures b.OffScale? ==> b.consumed <= |errors| && !Settable(b.attenuation)
    ensures b.Unsettled? ==> good <= b.good < 2
    decreases |errors|
  {
    if !Settable(atten) then OffScale(atten, 0)
    else if |errors| == 0 then Unsettled(atten, good)
    else if Good(errors[0]) then
      if good == 1 then Settled(atten, 1)
      else Later(Converge(atten, good + 1, errors[1..]))
    else Later(Converge(atten - Abs(errors[0]), good, errors[1..]))
  }

  /** The attenuation written at pass k: the start less the errors of the
      bad readings among the first k. */
  function AttenuationAt(start: real, errors: seq<real>, k: nat): real
    requires k <= |errors|
  {
    start - Corrections(errors[..k])
  }

  /** The first n passes all write an attenuation `set` accepts. */
  predicate SetsPass(start: real, errors: seq<real>, n: nat)
    requires n <= |errors| + 1
  {
    forall k :: 0 <= k < n ==> Settable(AttenuationAt(start, errors, k))
  }

  function Balancing(sensitivity: real, errors: seq<real>): (b: Balance)
    ensures var start := StartAttenuation(sensitivity);
      && (b.Settled? ==>
            && 1 <= b.consumed <= |errors| && Good(errors[b.consumed - 1])
            && GoodCount(errors[..b.consumed]) == 2
            && b.attenuation == AttenuationAt(start, errors, b.consumed)
            && SetsPass(start, errors, b.consumed))
      && (b.OffScale? ==>
            && b.consumed <= |errors|
            && GoodCount(errors[..b.consumed]) < 2
            && b.attenuation == AttenuationAt(start, errors, b.consumed)
            && !Settable(b.attenuation)
            && SetsPass(start, errors, b.consumed))
      && (b.Unsettled? ==>
            && b.good == GoodCount(errors) < 2
            && b.attenuation == AttenuationAt(start, errors, |errors|)
            && SetsPass(start, errors, |errors| + 1))
      && (SetsPass(start, errors, |errors| + 1) ==> !b.OffScale? && (b.Settled? <==> GoodCount(errors) >= 2))
  {
    ConvergeClosedForm(StartAttenuation(sensitivity), 0, errors);
    Converge(StartAttenuation(sensitivity), 0, errors)
  }

  function GoodCount(errors: seq<real>): nat {
    if |errors| == 0 then 0 else (if Good(errors[0]) then 1 else 0) + GoodCount(errors[1..])
  }

  /** The sum of the errors of the readings that were not good. */
  function Corrections(errors: seq<real>): real {
    if |errors| == 0 then 0.0 else (if Good(errors[0]) then 0.0 else Abs(errors[0])) + Corrections(errors[1..])
  }

  lemma {:induction false} CorrectionsNonNegative(errors: seq<real>)
    ensures Corrections(errors) >= 0.0
    decreases |errors|
  {
    if |errors| > 0 {
      CorrectionsNonNegative(errors[1..]);
    }
  }

  /** Splitting off the first reading of a prefix. */
  lemma PrefixStep(errors: seq<real>, k: nat)
    requires 0 <= k < |errors|
    ensures Corrections(errors[..k + 1]) == Corrections(errors[..1]) + Corrections(errors[1..][..k])
    ensures GoodCount(errors[..k + 1]) == GoodCount(errors[..1]) + GoodCount(errors[1..][..k])
  {
    assert errors[..k + 1][1..] == errors[1..][..k];
    assert errors[..1][1..] == [];
  }

  /** The loop in closed form from `atten` with `good` good readings so
      far: pass k writes the attenuation less the errors of the bad readings
      before it. The loop settles right at the reading that makes two good
      ones, stops at the first pass whose attenuation `set` rejects, or
      runs out of readings with every write accepted. */
  predicate ClosedForm(atten: real, good: nat, errors: seq<real>, b: Balance) {
    && (b.Settled? ==>
          && 1 <= b.consumed <= |errors|
          && Good(errors[b.consumed - 1])
          && good + GoodCount(errors[..b.consumed]) == 2
          && b.attenuation == AttenuationAt(atten, errors, b.consumed)
          && SetsPass(atten, errors, b.consumed))
    && (b.OffScale? ==>
          && b.consumed <= |errors|
          && good + GoodCount(errors[..b.consumed]) < 2
          && b.attenuation == AttenuationAt(atten, errors, b.consumed)
          && SetsPass(atten, errors, b.consumed))
    && (b.Unsettled? ==>
          && b.good == good + GoodCount(errors)
          && b.attenuation == AttenuationAt(atten, errors, |errors|)
          && SetsPass(atten, errors, |errors| + 1))
    && (SetsPass(atten, errors, |errors| + 1) ==> !b.OffScale? && (b.Settled? <==> good + GoodCount(errors) >= 2))
  }

  lemma {:induction false} ConvergeClosedForm(atten: real, good: nat, errors: seq<real>)
    requires good < 2
    ensures ClosedForm(atten, good, errors, Converge(atten, good, errors))
    decreases |errors|
  {
    assert errors[..0] == [];
    if !Settable(atten) {
      assert !SetsPass(atten, errors, |errors| + 1) by {
        assert !Settable(AttenuationAt(atten, errors, 0));
      }
    } else if |errors| == 0 {
      assert errors[..|errors|] == errors;
    } else if Good(errors[0]) && good == 1 {
      FirstReading(errors);
      assert Converge(atten, good, errors) == Settled(atten, 1);
      assert SetsPass(atten, errors, 1) by {
        assert Settable(AttenuationAt(atten, errors, 0));
      }
      assert GoodCount(errors) >= 1;
    } else {
      FirstReading(errors);
      var e := errors[0];
      var g := if Good(e) then good + 1 else good;
      var a := if Good(e) then atten else atten - Abs(e);
      ConvergeClosedForm(a, g, errors[1..]);
      StepClosedForm(atten, good, errors, a, g, Converge(a, g, errors[1..]));
    }
  }

  /** The step case: a first reading that does not end the loop leaves
      the attenuation `a` and the count `g`, from which the rest of the
      loop ends as `inner`. */
  lemma StepClosedForm(atten: real, good: nat, errors: seq<real>, a: real, g: nat, inner: Balance)
    requires Settable(atten) && |errors| > 0
    requires a == atten - Corrections(errors[..1]) && g == good + GoodCount(errors[..1])
    requires ClosedForm(a, g, errors[1..], inner)
    ensures ClosedForm(atten, good, errors, Later(inner))
  {
    match inner
    case Settled(_, _) => LaterSettled(atten, good, errors, a, g, inner);
    case OffScale(_, _) => LaterOffScale(atten, good, errors, a, g, inner);
    case Unsettled(_, _) => LaterUnsettled(atten, good, errors, a, g, inner);
  }

  /** What every step case uses: all the writes of the rest shifted by one. */
  lemma ShiftWhole(atten: real, good: nat, errors: seq<real>, a: real, g: nat)
    requires Settable(atten) && |errors| > 0
    requires a == atten - Corrections(errors[..1]) && g == good + GoodCount(errors[..1])
    ensures SetsPass(atten, errors, |errors| + 1) <==> SetsPass(a, errors[1..], |errors|)
    ensures errors[..|errors|] == errors && errors[1..][..|errors| - 1] == errors[1..]
  {
    ShiftPasses(atten, errors, a, |errors|);
    assert errors[..|errors|] == errors && errors[1..][..|errors| - 1] == errors[1..];
  }

  /** The whole count and final attenuation of the rest, shifted by one. */
  lemma ShiftCount(atten: real, good: nat, errors: seq<real>, a: real, g: nat)
    requires |errors| > 0
    requires a == atten - Corrections(errors[..1]) && g == good + GoodCount(errors[..1])
    ensures g + GoodCount(errors[1..]) == good + GoodCount(errors)
    ensures AttenuationAt(atten, errors, |errors|) == AttenuationAt(a, errors[1..], |errors| - 1)
  {
    AfterFirst(atten, good, errors, a, g, |errors| - 1);
    assert errors[..|errors|] == errors && errors[1..][..|errors| - 1] == errors[1..];
  }

  lemma ShiftedAt(atten: real, good: nat, errors: seq<real>, a: real, g: nat, n: nat)
    requires |errors| > 0 && n <= |errors| - 1
    requires a == atten - Corrections(errors[..1]) && g == good + GoodCount(errors[..1])
    requires Settable(atten)
    ensures Shifted(atten, good, errors, a, g, n)
  {
    ShiftPasses(atten, errors, a, n);
    AfterFirst(atten, good, errors, a, g, n);
  }

  /** The facts the step cases share: the loop after the first reading,
      with the first n passes shifted by one. */
  predicate Shifted(atten: real, good: nat, errors: seq<real>, a: real, g: nat, n: nat)
    requires |errors| > 0 && n <= |errors| - 1
  {
    && (SetsPass(atten, errors, n + 1) <==> SetsPass(a, errors[1..], n))
    && AttenuationAt(atten, errors, n + 1) == AttenuationAt(a, errors[1..], n)
    && good + GoodCount(errors[..n + 1]) == g + GoodCount(errors[1..][..n])
  }

  lemma LaterSettled(atten: real, good: nat, errors: seq<real>, a: real, g: nat, inner: Balance)
    requires Settable(atten) && |errors| > 0
    requires a == atten - Corrections(errors[..1]) && g == good + GoodCount(errors[..1])
    requires inner.Settled? && ClosedForm(a, g, errors[1..], inner)
    ensures ClosedForm(atten, good, errors, Later(inner))
  {
    var n := inner.consumed;
    ShiftWhole(atten, good, errors, a, g);
    ShiftCount(atten, good, errors, a, g);
    ShiftedAt(atten, good, errors, a, g, n);
    var b := Later(inner);
    assert b == Settled(inner.attenuation, n + 1);
    assert Good(errors[n]) by {
      assert errors[1..][n - 1] == errors[n];
    }
  }

  lemma LaterOffScale(atten: real, good: nat, errors: seq<real>, a: real, g: nat, inner: Balance)
    requires Settable(atten) && |errors| > 0
    requires a == atten - Corrections(errors[..1]) && g == good + GoodCount(errors[..1])
    requires inner.OffScale? && ClosedForm(a, g, errors[1..], inner)
    ensures ClosedForm(atten, good, errors, Later(inner))
  {
    ShiftWhole(atten, good, errors, a, g);
    ShiftedAt(atten, good, errors, a, g, inner.consumed);
  }

  lemma LaterUnsettled(atten: real, good: nat, errors: seq<real>, a: real, g: nat, inner: Balance)
    requires Settable(atten) && |errors| > 0
    requires a == atten - Corrections(errors[..1]) && g == good + GoodCount(errors[..1])
    requires inner.Unsettled? && ClosedForm(a, g, errors[1..], inner)
    ensures ClosedForm(atten, good, errors, Later(inner))
  {
    ShiftWhole(atten, good, errors, a, g);
    ShiftCount(atten, good, errors, a, g);
  }

  lemma FirstReading(errors: seq<real>)
    requires |errors| > 0
    ensures Corrections(errors[..1]) == (if Good(errors[0]) then 0.0 else Abs(errors[0]))
    ensures GoodCount(errors[..1]) == (if Good(errors[0]) then 1 else 0)
  {
    assert errors[..1][1..] == [];
  }

  /** Pass k + 1 of the loop is pass k of the loop started after the first
      reading, from the attenuation and count that reading left. */
  lemma AfterFirst(atten: real, good: nat, errors: seq<real>, a: real, g: nat, k: nat)
    requires |errors| > 0 && k <= |errors| - 1
    requires a == atten - Corrections(errors[..1]) && g == good + GoodCount(errors[..1])
    ensures AttenuationAt(atten, errors, k + 1) == AttenuationAt(a, errors[1..], k)
    ensures good + GoodCount(errors[..k + 1]) == g + GoodCount(errors[1..][..k])
  {
    PrefixStep(errors, k);
  }

  /** The first n + 1 writes of the loop pass iff the first write and the
      first n writes of the loop after the first reading do. */
  lemma ShiftPasses(atten: real, errors: seq<real>, a: real, n: nat)
    requires |errors| > 0 && n <= |errors|
    requires a == atten - Corrections(errors[..1])
    requires Settable(atten)
    ensures SetsPass(atten, errors, n + 1) <==> SetsPass(a, errors[1..], n)
  {
    var rest := errors[1..];
    assert errors[..0] == [];
    forall k | 0 <= k < n
      ensures AttenuationAt(atten, errors, k + 1) == AttenuationAt(a, rest, k)
    {
      PrefixStep(errors, k);
    }
    if SetsPass(a, rest, n) {
      forall k | 0 <= k < n + 1
        ensures Settable(AttenuationAt(atten, errors, k))
      {
        if k > 0 {
          assert Settable(AttenuationAt(a, rest, k - 1));
        }
      }
    }
    if SetsPass(atten, errors, n + 1) {
      forall k | 0 <= k < n
        ensures Settable(AttenuationAt(a, rest, k))
      {
        assert Settable(AttenuationAt(atten, errors, k + 1));
      }
    }
  }

  /** The attenuation written never rises: pass k writes at most what pass
      j < k wrote. */
  lemma {:induction false} AttenuationFalls(start: real, errors: seq<real>, j: nat, k: nat)
    requires j <= k <= |errors|
    ensures AttenuationAt(start, errors, k) <= AttenuationAt(start, errors, j)
    decreases k - j
  {
    if j < k {
      AttenuationFalls(start, errors, j, k - 1);
      assert errors[..k] == errors[..k - 1] + [errors[k - 1]];
      CorrectionsAppend(errors[..k - 1], errors[k - 1]);
    }
  }

  lemma {:induction false} CorrectionsAppend(s: seq<real>, e: real)
    ensures Corrections(s + [e]) == Corrections(s) + (if Good(e) then 0.0 else Abs(e))
    decreases |s|
  {
    if |s| == 0 {
      assert [e][1..] == [];
    } else {
      assert (s + [e])[1..] == s[1..] + [e];
      CorrectionsAppend(s[1..], e);
    }
  }

  /** Every write is accepted when the start is on the scale and the
      attenuation after all the corrections is not negative. */
  lemma BalancingStaysOnScale(sensitivity: real, errors: seq<real>)
    requires StartAttenuation(sensitivity) >= 0.0
    requires RoundHalfAway(StartAttenuation(sensitivity) * 100.0) <= 9999
    requires AttenuationAt(StartAttenuation(sensitivity), errors, |errors|) >= 0.0
    ensures !Balancing(sensitivity, errors).OffScale?
    ensures Balancing(sensitivity, errors).Settled? <==> GoodCount(errors) >= 2
  {
    var start := StartAttenuation(sensitivity);
    forall k | 0 <= k < |errors| + 1
      ensures Settable(AttenuationAt(start, errors, k))
    {
      var a := AttenuationAt(start, errors, k);
      AttenuationFalls(start, errors, 0, k);
      AttenuationFalls(start, errors, k, |errors|);
      assert errors[..0] == [];
      RoundHalfAwayMonotone(a * 100.0, start * 100.0);
    }
  }

  lemma RoundHalfAwayMonotone(x: real, y: real)
    requires 0.0 <= x <= y
    ensures RoundHalfAway(x) <= RoundHalfAway(y)
  {
  }

  /** The probe from a -26.49 dB microphone: the start is 32.49 dB, a
      40 dB error takes the attenuation to -7.51 dB, and the next write
      raises before the good readings are taken. */
  lemma NegativeAttenuationRaises()
    ensures Balancing(-26.49, [40.0, 0.001, 0.001]) == OffScale(-7.51, 1)
  {
    assert StartAttenuation(-26.49) == 32.49;
    assert RoundHalfAway(32.49 * 100.0) == 3249;
    assert Settable(32.49);
    assert !Good(40.0);
  }

  /** The good readings need not be adjacent: good, bad (0.3 dB), good
      settles after three readings, 0.3 dB below the start. */
  lemma NonConsecutiveGoodReadings()
    ensures Balancing(-26.49, [0.001, 0.3, -0.002, 0.4]) == Settled(32.19, 3)
  {
    assert StartAttenuation(-26.49) == 32.49;
    assert RoundHalfAway(32.49 * 100.0) == 3249 && RoundHalfAway(32.19 * 100.0) == 3219;
    assert Settable(32.49) && Settable(32.19);
    assert Good(0.001) && !Good(0.3) && Good(-0.002);
    assert Converge(32.19, 1, [-0.002, 0.4]) == Settled(32.19, 1);
  }

  // ---------------------------------------------------------------------
  // Uncertainty budget
  // ---------------------------------------------------------------------

  /** The twelve contributions, in dB: insert voltage uncertainty and error,
      attenuator uncertainty and error, microphone sensitivity and its
      pressure and temperature corrections, voltage matching, polarising
      voltage, static pressure, microphone volume, resolution. */
  datatype Budget = Budget(
    ivu: real, ive: real, au: real, ae: real, mu: real, mp: real,
    mt: real, mm: real, kpv: real, kp: real, kmv: real, splr: real)

  function Sq(x: real): real {
    x * x
  }

  /** The sum under the square root of `combined_uncertainty`. The three
      contributions with a normal distribution are divided by 2 and the rest
      by sqrt(3) before squaring; over the reals (x / sqrt(3))^2 is x^2 / 3.
      The level argument `spl` is not used. */
  function Variance(b: Budget, spl: real): (v: real)
    ensures v == (Sq(b.ivu) + Sq(b.au) + Sq(b.mu)) / 4.0
              + (Sq(b.ive) + Sq(b.ae) + Sq(b.mp) + Sq(b.mt) + Sq(b.mm)
                 + Sq(b.kpv) + Sq(b.kp) + Sq(b.kmv) + Sq(b.splr)) / 3.0
  {
    Sq(b.ivu / 2.0) + Sq(b.ive) / 3.0 + Sq(b.au / 2.0) + Sq(b.ae) / 3.0
      + Sq(b.mu / 2.0) + Sq(b.mp) / 3.0 + Sq(b.mt) / 3.0 + Sq(b.mm) / 3.0
      + Sq(b.kpv) / 3.0 + Sq(b.kp) / 3.0 + Sq(b.kmv) / 3.0 + Sq(b.splr) / 3.0
  }

  predicate AllZero(b: Budget) {
    b.ivu == 0.0 && b.ive == 0.0 && b.au == 0.0 && b.ae == 0.0 && b.mu == 0.0 && b.mp == 0.0
    && b.mt == 0.0 && b.mm == 0.0 && b.kpv == 0.0 && b.kp == 0.0 && b.kmv == 0.0 && b.splr == 0.0
  }

  /** The sum is never negative, vanishes for an all-zero budget, holds
      each contribution's share, and does not depend on the level. */
  lemma VarianceSign(b: Budget, spl: real, other: real)
    ensures Variance(b, spl) >= 0.0
    ensures AllZero(b) ==> Variance(b, spl) == 0.0
    ensures Variance(b, spl) >= Sq(b.au) / 4.0 && Variance(b, spl) >= Sq(b.ae) / 3.0
    ensures Variance(b, spl) >= Sq(b.ivu) / 4.0 && Variance(b, spl) >= Sq(b.ive) / 3.0
    ensures Variance(b, spl) == Variance(b, other)
  {
  }

  /** The fixed contributions of `calculate_uncertainties`. */
  const MicrophoneSensitivity: real := 0.01
  const PressureCorrection: real := 0.038
  const TemperatureCorrection: real := 0.050
  const VoltageMatching: real := 0.005
  const PolarisingCorrection: real := 0.01
  const StaticPressureCorrection: real := 0.02
  const VolumeCorrection: real := 0.02
  const Resolution: real := 0.005

  /** What one measurement contributes: its attenuation and level, in dB. */
  datatype Measurement = Measurement(attenuation: real, spl: real)

  function Sum(xs: seq<real>): real {
    if |xs| == 0 then 0.0 else xs[0] + Sum(xs[1..])
  }

  function Attenuations(ms: seq<Measurement>): (xs: seq<real>)
    ensures |xs| == |ms| && forall i :: 0 <= i < |ms| ==> xs[i] == ms[i].attenuation
  {
    seq(|ms|, i requires 0 <= i < |ms| => ms[i].attenuation)
  }

  function Levels(ms: seq<Measurement>): (xs: seq<real>)
    ensures |xs| == |ms| && forall i :: 0 <= i < |ms| ==> xs[i] == ms[i].spl
  {
    seq(|ms|, i requires 0 <= i < |ms| => ms[i].spl)
  }

  function MeanAttenuation(ms: seq<Measurement>): real
    requires |ms| > 0
  {
    Sum(Attenuations(ms)) / |ms| as real
  }

  /** The mean attenuation in hundredths, as "%05.2f" shows it. The mean
      is an exact real here and a tie is rounded away from zero; Python
      rounds the binary value, so an exact binary tie would go to even
      instead. No such tie lies on a leading-digit boundary, so the lookups
      are unaffected. */
  function MeanHundredths(ms: seq<Measurement>): int
    requires |ms| > 0
  {
    RoundHalfAway(MeanAttenuation(ms) * 100.0)
  }

  /** The expanded uncertainties: total (k = 2) and distortion. */
  datatype Uncertainties = Uncertainties(total: real, thd: real, budget: Budget)

  /** `calculate_uncertainties`: the attenuator contributions are looked up
      at the mean attenuation; the combined uncertainty is the square root
      (`sqrt`, an input) of the variance rounded to 0.001 dB, and both it and
      the attenuator uncertainty are doubled. `ivu` and `ive` are the
      voltmeter contributions (log10 of the certificate values). */
  function CalculateUncertainties(ms: seq<Measurement>, ivu: real, ive: real, sqrt: real -> real)
    : (r: Result<Uncertainties, LookupError>)
    ensures |ms| == 0 ==> r == Err(NoMeasurements)
    ensures |ms| > 0 && MeanAttenuation(ms) >= 0.0 && MeanHundredths(ms) <= 9999 ==>
      (r.Ok? <==> MeanHundredths(ms) < 6000)
    ensures |ms| > 0 && MeanAttenuation(ms) < 0.0 ==> r == Err(NotANumber('-'))
    ensures r.Ok? ==>
      var u := r.value;
      && |ms| > 0
      && AttenuatorUncertainty(MeanHundredths(ms)) == Ok(Some(u.budget.au))
      && AttenuatorError(MeanHundredths(ms)) == Ok(Some(u.budget.ae))
      && u.thd == 2.0 * u.budget.au
      && u.total == 2.0 * Round(sqrt(Variance(u.budget, Sum(Levels(ms)) / |ms| as real)), 3)
      && u.budget.ivu == ivu && u.budget.ive == ive
      && u.budget.mu == 0.01 && u.budget.mp == 0.038 && u.budget.mt == 0.050
      && u.budget.mm == 0.005 && u.budget.kpv == 0.01 && u.budget.kp == 0.02
      && u.budget.kmv == 0.02 && u.budget.splr == 0.005
  {
    if |ms| == 0 then Err(NoMeasurements)
    // Any negative mean, even one that rounds to zero, formats with a
    // leading '-' ("-0.00"), which int() rejects.
    else if MeanAttenuation(ms) < 0.0 then Err(NotANumber('-'))
    else
      var h := MeanHundredths(ms);
      // Where Au is defined (digits 0 to 5) so is Ae; a None Au raises
      // TypeError in the arithmetic that follows.
      var d := LeadingDigit(h).value;
      if d > 5 then Err(NoTableEntry(d))
      else
        var au := UncertaintyForDigit(d);
        var ae := ErrorForDigit(d);
        var b := Budget(ivu, ive, au.value, ae.value, MicrophoneSensitivity, PressureCorrection,
                        TemperatureCorrection, VoltageMatching, PolarisingCorrection,
                        StaticPressureCorrection, VolumeCorrection, Resolution);
        var splAverage := Sum(Levels(ms)) / |ms| as real;
        var combined := Round(sqrt(Variance(b, splAverage)), 3);
        Ok(Uncertainties(combined * 2.0, au.value * 2.0, b))
  }
}
