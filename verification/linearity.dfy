/** The linearity procedure (`linearity`): the operator tunes the attenuator
    until the meter shows each target level of the upper and then the lower
    sweep, and the program reads the attenuator and pre-sets it for the next
    target; afterwards every further level range is compared with the first
    reading taken. */
module Linearity {
  import opened Wrappers
  import opened Decimal
  import opened Tolerance
  import El100

  /** The fixed reference point of the linearity check, in dB. */
  const ReferencePoint: int := 94

  // ---------------------------------------------------------------------
  // Target levels
  // ---------------------------------------------------------------------

  /** Python's range(start, stop, step) for a positive step. */
  function RangeUp(start: int, stop: int, step: nat): (r: seq<int>)
    requires step > 0
    ensures forall i :: 0 <= i < |r| ==> r[i] == start + i * step && r[i] < stop
    ensures start + |r| * step >= stop
    decreases stop - start
  {
    if start >= stop then [] else [start] + RangeUp(start + step, stop, step)
  }

  /** Python's range(start, stop, -step) for a positive step. */
  function RangeDown(start: int, stop: int, step: nat): (r: seq<int>)
    requires step > 0
    ensures forall i :: 0 <= i < |r| ==> r[i] == start - i * step && r[i] > stop
    ensures start - |r| * step <= stop
    decreases start - stop
  {
    if start <= stop then [] else [start] + RangeDown(start - step, stop, step)
  }

  /** 94 dB upward in 5 dB steps, then the last five 1 dB steps up to int(max). */
  function UpperTargets(maxLevel: real): (r: seq<int>)
    ensures forall i :: 0 <= i < |r| ==> r[i] <= Trunc(maxLevel)
  {
    UpperTargetsFrom(Trunc(maxLevel))
  }

  function UpperTargetsFrom(top: int): seq<int> {
    RangeUp(ReferencePoint, top - 4, 5) + RangeUp(top - 4, top + 1, 1)
  }

  /** 94 dB downward in 5 dB steps while above int(min) + 5; the 1 dB tail
      range(int(min) + 5, int(min) - 1) is always empty. */
  function LowerTargets(minLevel: real): (r: seq<int>)
    ensures forall i :: 0 <= i < |r| ==> Trunc(minLevel) + 5 < r[i] <= ReferencePoint
  {
    LowerTargetsFrom(Trunc(minLevel))
  }

  function LowerTargetsFrom(bottom: int): seq<int> {
    RangeDown(ReferencePoint, bottom + 5, 5) + RangeUp(bottom + 5, bottom - 1, 1)
  }

  /** The upper targets rise strictly; they are the 5 dB grid from 94 below
      int(max) - 4 together with every level from int(max) - 4 to int(max). */
  lemma UpperTargetsShape(maxLevel: real)
    ensures var r := UpperTargets(maxLevel);
      forall i, j :: 0 <= i < j < |r| ==> r[i] < r[j]
    ensures var top := Trunc(maxLevel);
      forall x :: x in UpperTargets(maxLevel) <==>
        (ReferencePoint <= x < top - 4 && (x - ReferencePoint) % 5 == 0) || top - 4 <= x <= top
  {
    var top := Trunc(maxLevel);
    UpperTargetsRise(top, top - 4);
    UpperTargetsMembers(top, top - 4);
  }

  lemma UpperTargetsRise(top: int, mid: int)
    requires mid == top - 4
    ensures var r := UpperTargetsFrom(top);
      forall i, j :: 0 <= i < j < |r| ==> r[i] < r[j]
  {
    var a := RangeUp(ReferencePoint, mid, 5);
    var b := RangeUp(mid, top + 1, 1);
    JoinIncreasing(a, b, mid);
  }

  lemma UpperTargetsMembers(top: int, mid: int)
    requires mid == top - 4
    ensures forall x :: x in UpperTargetsFrom(top) <==>
      (ReferencePoint <= x < mid && (x - ReferencePoint) % 5 == 0) || mid <= x <= top
  {
    var a := RangeUp(ReferencePoint, mid, 5);
    var b := RangeUp(mid, top + 1, 1);
    FiveStepMembers(ReferencePoint, mid);
    UnitStepMembers(mid, top + 1);
    assert forall x :: x in a + b <==> x in a || x in b;
  }

  /** range(start, stop, 5) holds exactly the values of the 5 grid from start below stop. */
  lemma FiveStepMembers(start: int, stop: int)
    ensures forall x :: x in RangeUp(start, stop, 5) <==> start <= x < stop && (x - start) % 5 == 0
  {
    var r := RangeUp(start, stop, 5);
    forall x | x in r
      ensures start <= x < stop && (x - start) % 5 == 0
    {
      var i :| 0 <= i < |r| && r[i] == x;
      assert x - start == i * 5;
    }
    forall x | start <= x < stop && (x - start) % 5 == 0
      ensures x in r
    {
      var i := (x - start) / 5;
      assert start + i * 5 == x;
      assert r[i] == x;
    }
  }

  /** range(start, stop) holds exactly the integers from start below stop. */
  lemma UnitStepMembers(start: int, stop: int)
    ensures forall x :: x in RangeUp(start, stop, 1) <==> start <= x < stop
  {
    var r := RangeUp(start, stop, 1);
    forall x | start <= x < stop
      ensures x in r
    {
      assert r[x - start] == x;
    }
  }

  /** Two rising runs, the first below `mid` and the second from it, rise together. */
  lemma JoinIncreasing(a: seq<int>, b: seq<int>, mid: int)
    requires forall i, j :: 0 <= i < j < |a| ==> a[i] < a[j]
    requires forall i, j :: 0 <= i < j < |b| ==> b[i] < b[j]
    requires forall i :: 0 <= i < |a| ==> a[i] < mid
    requires forall i :: 0 <= i < |b| ==> b[i] >= mid
    ensures forall i, j :: 0 <= i < j < |a + b| ==> (a + b)[i] < (a + b)[j]
  {
  }

  /** The lower targets fall strictly and are exactly the 5 dB grid from 94
      down to, but excluding, int(min) + 5. */
  lemma LowerTargetsShape(minLevel: real)
    ensures var r := LowerTargets(minLevel);
      forall i, j :: 0 <= i < j < |r| ==> r[i] > r[j]
    ensures var bottom := Trunc(minLevel);
      forall x :: x in LowerTargets(minLevel) <==>
        bottom + 5 < x <= ReferencePoint && (ReferencePoint - x) % 5 == 0
  {
    var bottom := Trunc(minLevel);
    var a := RangeDown(ReferencePoint, bottom + 5, 5);
    assert RangeUp(bottom + 5, bottom - 1, 1) == [];
    assert LowerTargets(minLevel) == a;
    FiveStepDownMembers(ReferencePoint, bottom + 5);
  }

  /** range(start, stop, -5) holds exactly the values of the 5 grid from
      start down to, but excluding, stop, falling. */
  lemma FiveStepDownMembers(start: int, stop: int)
    ensures var r := RangeDown(start, stop, 5);
      forall i, j :: 0 <= i < j < |r| ==> r[i] > r[j]
    ensures forall x :: x in RangeDown(start, stop, 5) <==> stop < x <= start && (start - x) % 5 == 0
  {
    var r := RangeDown(start, stop, 5);
    forall x | x in r
      ensures stop < x <= start && (start - x) % 5 == 0
    {
      var i :| 0 <= i < |r| && r[i] == x;
      assert start - x == i * 5;
    }
    forall x | stop < x <= start && (start - x) % 5 == 0
      ensures x in r
    {
      var i := (start - x) / 5;
      assert start - i * 5 == x;
      assert r[i] == x;
    }
  }

  /** A 140 dB top of range: 134 dB is followed directly by 136 dB. */
  lemma UpperTargetsExample()
    ensures UpperTargets(140.0) == [94, 99, 104, 109, 114, 119, 124, 129, 134, 136, 137, 138, 139, 140]
  {
    assert Trunc(140.0) == 140;
    assert UpperTargetsFrom(140) == [94, 99, 104, 109, 114, 119, 124, 129, 134, 136, 137, 138, 139, 140];
  }

  /** A 25 dB bottom of range: the lowest target is 34 dB. */
  lemma LowerTargetsExample()
    ensures LowerTargets(25.0) == [94, 89, 84, 79, 74, 69, 64, 59, 54, 49, 44, 39, 34]
  {
    assert Trunc(25.0) == 25;
    assert LowerTargetsFrom(25) == [94, 89, 84, 79, 74, 69, 64, 59, 54, 49, 44, 39, 34];
  }

  // ---------------------------------------------------------------------
  // The two sweeps
  // ---------------------------------------------------------------------

  datatype Direction = Upward | Downward

  /** A failed attenuator read (float() rejecting the reply). */
  datatype SweepError = Unreadable(getError: El100.GetError)

  /** What the instruments answer at one target: the attenuator's raw reply
      and the voltmeter reading. */
  datatype Reading = Reading(attenuatorReply: string, voltage: real)

  /** One row: target level, attenuation (hundredths), difference re the
      reference level, nominal difference, deviation, uncertainty, voltage
      and class. */
  datatype Row = Row(
    target: int,
    attenuation: int,
    diffReference: real,
    nominalDiff: real,
    deviation: real,
    uncertainty: real,
    voltage: real,
    grade: Grade)

  /** Rows recorded and attenuator commands sent, in order. */
  datatype Run = Run(rows: seq<Row>, commands: seq<string>)

  /** The attenuation pre-set for the next target: 5 dB (or, near the end of
      the scale, 1 dB) further in the sweep's direction, or nothing. */
  function Seed(dir: Direction, a: int): (r: Option<int>)
    ensures r.Some? && dir == Upward ==> r.value < a && (r.value == a - 500 || r.value == a - 100)
    ensures r.Some? && dir == Downward ==> r.value > a && (r.value == a + 500 || r.value == a + 100)
    ensures r.None? <==> (dir == Upward && a <= 100) || (dir == Downward && a >= 9900)
    ensures r.Some? && dir == Upward ==> (r.value == a - 500 <==> a > 500)
    ensures r.Some? && dir == Downward ==> (r.value == a + 500 <==> a < 9500)
  {
    match dir
    case Upward =>
      if a > 500 then Some(a - 500) else if a > 100 then Some(a - 100) else None
    case Downward =>
      if a < 9500 then Some(a + 500) else if a < 9900 then Some(a + 100) else None
  }

  /** A seed taken from a reading on the attenuator's scale is on the scale too. */
  lemma SeedOnScale(dir: Direction, a: int)
    requires 0 <= a <= 9999
    ensures Seed(dir, a).Some? ==> 0 < Seed(dir, a).value <= 9999
  {
  }

  function ReadAttenuator(reply: string): (r: Result<int, SweepError>)
    ensures r.Ok? <==> El100.Get(reply).Ok?
    ensures r.Ok? ==> r.value == El100.Get(reply).value
  {
    match El100.Get(reply)
    case Ok(a) => Ok(a)
    case Err(e) => Err(Unreadable(e))
  }

  /** The command `set` writes for a value on the scale (where it cannot fail). */
  function SendAttenuator(h: int): (cmd: string)
    requires 0 <= h <= 9999
    ensures El100.DecodeCommand(cmd) == Some(h)
  {
    El100.SetRoundTrip(h);
    El100.Set(El100.Number(h)).value
  }

  /** One target: a zero attenuation skips the row; otherwise the row is
      recorded and the seed, if any, is sent. The deviation is the difference
      re the reference level minus the nominal difference, which are the same
      number. */
  function Step(dir: Direction, target: int, reading: Reading): (r: Result<Run, SweepError>)
    ensures r.Ok? <==> El100.Get(reading.attenuatorReply).Ok?
    ensures r.Ok? ==>
      var a := El100.Get(reading.attenuatorReply).value;
      && (a == 0 ==> r.value == Run([], []))
      && (a != 0 ==>
            && |r.value.rows| == 1
            && var row := r.value.rows[0];
               && row.target == target && row.attenuation == a && row.voltage == reading.voltage
               && row.nominalDiff == (target - ReferencePoint) as real
               && row.deviation == 0.0 && row.grade == Class1
               && |r.value.commands| == (if Seed(dir, a).Some? then 1 else 0)
               && (Seed(dir, a).Some? ==> El100.DecodeCommand(r.value.commands[0]) == Seed(dir, a)))
  {
    var a :- ReadAttenuator(reading.attenuatorReply);
    if a == 0 then Ok(Run([], []))
    else
      var diff := (target - ReferencePoint) as real;
      var nominal := (target - ReferencePoint) as real;
      var deviation := diff - nominal;
      var row := Row(target, a, diff, nominal, deviation, LinearityUncertainty, reading.voltage,
                     LinearityGrade(deviation, LinearityUncertainty));
      match Seed(dir, a)
      case None => Ok(Run([row], []))
      case Some(next) =>
        SeedOnScale(dir, a);
        Ok(Run([row], [SendAttenuator(next)]))
  }

  /** One sweep, `readings[i]` answering at `targets[i]`. */
  function Sweep(dir: Direction, targets: seq<int>, readings: seq<Reading>): (r: Result<Run, SweepError>)
    requires |readings| == |targets|
    ensures r.Ok? ==> |r.value.rows| <= |targets|
    decreases |targets|
  {
    if |targets| == 0 then Ok(Run([], []))
    else
      var first :- Step(dir, targets[0], readings[0]);
      var rest :- Sweep(dir, targets[1..], readings[1..]);
      Ok(Run(first.rows + rest.rows, first.commands + rest.commands))
  }

  predicate Readable(reading: Reading) {
    El100.Get(reading.attenuatorReply).Ok?
  }

  /** The attenuator reads zero: the target cannot be reached and is skipped. */
  predicate Skipped(reading: Reading) {
    El100.Get(reading.attenuatorReply) == Ok(0)
  }

  predicate AllReadable(readings: seq<Reading>) {
    forall i :: 0 <= i < |readings| ==> Readable(readings[i])
  }

  /** A sweep succeeds iff every attenuator reply is readable. */
  lemma {:induction false} SweepSucceeds(dir: Direction, targets: seq<int>, readings: seq<Reading>)
    requires |readings| == |targets|
    ensures Sweep(dir, targets, readings).Ok? <==> AllReadable(readings)
    decreases |targets|
  {
    if |targets| > 0 {
      SweepSucceeds(dir, targets[1..], readings[1..]);
      assert AllReadable(readings) <==> Readable(readings[0]) && AllReadable(readings[1..]) by {
        assert forall i :: 1 <= i < |readings| ==> readings[1..][i - 1] == readings[i];
      }
    }
  }

  /** What a successful step contributes: at most one row, for its own
      target, with deviation 0 and class 1; exactly one unless skipped. */
  lemma StepRows(dir: Direction, target: int, reading: Reading)
    requires Step(dir, target, reading).Ok?
    ensures var rows := Step(dir, target, reading).value.rows;
      && |rows| <= 1
      && (!Skipped(reading) ==> |rows| == 1)
      && forall k :: 0 <= k < |rows| ==> RowOk(rows[k]) && rows[k].target == target
  {
  }

  predicate RowOk(row: Row) {
    row.deviation == 0.0 && row.grade == Class1 && row.attenuation != 0
  }

  lemma SweepCons(dir: Direction, targets: seq<int>, readings: seq<Reading>)
    requires |readings| == |targets| > 0
    requires Sweep(dir, targets, readings).Ok?
    ensures Step(dir, targets[0], readings[0]).Ok?
    ensures Sweep(dir, targets[1..], readings[1..]).Ok?
    ensures Sweep(dir, targets, readings).value.rows
            == Step(dir, targets[0], readings[0]).value.rows + Sweep(dir, targets[1..], readings[1..]).value.rows
  {
  }

  /** The rows of a successful sweep: every one has deviation 0 and class 1
      and belongs to a target of the sweep, and they are one per target, in
      order, when no reading is zero. */
  lemma {:induction false} SweepRows(dir: Direction, targets: seq<int>, readings: seq<Reading>)
    requires |readings| == |targets|
    requires Sweep(dir, targets, readings).Ok?
    ensures var rows := Sweep(dir, targets, readings).value.rows;
      && |rows| <= |targets|
      && forall k :: 0 <= k < |rows| ==> RowOk(rows[k]) && rows[k].target in targets
    ensures (forall i :: 0 <= i < |readings| ==> !Skipped(readings[i])) ==>
      var rows := Sweep(dir, targets, readings).value.rows;
      |rows| == |targets| && forall i :: 0 <= i < |rows| ==> rows[i].target == targets[i]
    decreases |targets|
  {
    SweepRowsClass1(dir, targets, readings);
    if forall i :: 0 <= i < |readings| ==> !Skipped(readings[i]) {
      SweepRowsAligned(dir, targets, readings);
    }
  }

  lemma {:induction false} SweepRowsClass1(dir: Direction, targets: seq<int>, readings: seq<Reading>)
    requires |readings| == |targets|
    requires Sweep(dir, targets, readings).Ok?
    ensures var rows := Sweep(dir, targets, readings).value.rows;
      && |rows| <= |targets|
      && forall k :: 0 <= k < |rows| ==> RowOk(rows[k]) && rows[k].target in targets
    decreases |targets|
  {
    if |targets| > 0 {
      SweepCons(dir, targets, readings);
      var head := Step(dir, targets[0], readings[0]).value.rows;
      var tail := Sweep(dir, targets[1..], readings[1..]).value.rows;
      StepRows(dir, targets[0], readings[0]);
      SweepRowsClass1(dir, targets[1..], readings[1..]);
      RowsJoin(head, tail, targets);
    }
  }

  /** Rows for the first target followed by rows for later targets are rows
      for the targets. */
  lemma RowsJoin(head: seq<Row>, tail: seq<Row>, targets: seq<int>)
    requires |targets| > 0
    requires forall k :: 0 <= k < |head| ==> RowOk(head[k]) && head[k].target == targets[0]
    requires forall k :: 0 <= k < |tail| ==> RowOk(tail[k]) && tail[k].target in targets[1..]
    ensures forall k :: 0 <= k < |head + tail| ==> RowOk((head + tail)[k]) && (head + tail)[k].target in targets
  {
    var rows := head + tail;
    forall k | 0 <= k < |rows|
      ensures RowOk(rows[k]) && rows[k].target in targets
    {
      if k < |head| {
        assert rows[k] == head[k];
      } else {
        assert rows[k] == tail[k - |head|];
        assert rows[k].target in targets[1..];
      }
    }
  }

  lemma {:induction false} SweepRowsAligned(dir: Direction, targets: seq<int>, readings: seq<Reading>)
    requires |readings| == |targets|
    requires Sweep(dir, targets, readings).Ok?
    requires forall i :: 0 <= i < |readings| ==> !Skipped(readings[i])
    ensures var rows := Sweep(dir, targets, readings).value.rows;
      |rows| == |targets| && forall i :: 0 <= i < |rows| ==> rows[i].target == targets[i]
    decreases |targets|
  {
    if |targets| > 0 {
      SweepCons(dir, targets, readings);
      var head := Step(dir, targets[0], readings[0]).value.rows;
      var tail := Sweep(dir, targets[1..], readings[1..]).value.rows;
      StepRows(dir, targets[0], readings[0]);
      assert !Skipped(readings[0]);
      assert forall i :: 0 <= i < |readings| - 1 ==> readings[1..][i] == readings[i + 1];
      SweepRowsAligned(dir, targets[1..], readings[1..]);
      RowsAlign(head, tail, targets);
    }
  }

  /** One row for the first target followed by one row per later target, in
      order, is one row per target, in order. */
  lemma RowsAlign(head: seq<Row>, tail: seq<Row>, targets: seq<int>)
    requires |targets| > 0 && |head| == 1 && head[0].target == targets[0]
    requires |tail| == |targets| - 1 && forall i :: 0 <= i < |tail| ==> tail[i].target == targets[1..][i]
    ensures |head + tail| == |targets| && forall i :: 0 <= i < |targets| ==> (head + tail)[i].target == targets[i]
  {
    var rows := head + tail;
    forall i | 0 <= i < |rows|
      ensures rows[i].target == targets[i]
    {
      if i > 0 {
        assert rows[i] == tail[i - 1];
        assert targets[1..][i - 1] == targets[i];
      }
    }
  }

  /** The pair of sweeps: upward over `UpperTargets`, then downward over
      `LowerTargets`. */
  function Sweeps(maxLevel: real, minLevel: real, up: seq<Reading>, down: seq<Reading>): (r: Result<Run, SweepError>)
    requires |up| == |UpperTargets(maxLevel)| && |down| == |LowerTargets(minLevel)|
    ensures r.Ok? <==> AllReadable(up) && AllReadable(down)
    ensures r.Ok? ==> |r.value.rows| <= |up| + |down|
  {
    SweepSucceeds(Upward, UpperTargets(maxLevel), up);
    SweepSucceeds(Downward, LowerTargets(minLevel), down);
    var upper :- Sweep(Upward, UpperTargets(maxLevel), up);
    var lower :- Sweep(Downward, LowerTargets(minLevel), down);
    Ok(Run(upper.rows + lower.rows, upper.commands + lower.commands))
  }

  /** Every row of the linearity sweeps is class 1, whatever the readings. */
  lemma SweepsAllClass1(maxLevel: real, minLevel: real, up: seq<Reading>, down: seq<Reading>)
    requires |up| == |UpperTargets(maxLevel)| && |down| == |LowerTargets(minLevel)|
    ensures var r := Sweeps(maxLevel, minLevel, up, down);
      r.Ok? ==> forall k :: 0 <= k < |r.value.rows| ==> r.value.rows[k].grade == Class1 && r.value.rows[k].deviation == 0.0
  {
    var r := Sweeps(maxLevel, minLevel, up, down);
    if r.Ok? {
      var upper := Sweep(Upward, UpperTargets(maxLevel), up);
      var lower := Sweep(Downward, LowerTargets(minLevel), down);
      assert upper.Ok? && lower.Ok? && r.value.rows == upper.value.rows + lower.value.rows;
      SweepRowsClass1(Upward, UpperTargets(maxLevel), up);
      SweepRowsClass1(Downward, LowerTargets(minLevel), down);
      RowsOkJoin(upper.value.rows, lower.value.rows);
    }
  }

  lemma RowsOkJoin(a: seq<Row>, b: seq<Row>)
    requires forall k :: 0 <= k < |a| ==> RowOk(a[k])
    requires forall k :: 0 <= k < |b| ==> RowOk(b[k])
    ensures forall k :: 0 <= k < |a + b| ==> RowOk((a + b)[k])
  {
  }

  // ---------------------------------------------------------------------
  // Level ranges
  // ---------------------------------------------------------------------

  datatype LevelRange = LevelRange(lower: real, upper: real)

  /** One row: level range, expected value (the reference reading), meter
      reading, deviation, uncertainty and class. */
  datatype RangeRow = RangeRow(
    range: LevelRange,
    expected: real,
    reading: real,
    deviation: real,
    uncertainty: real,
    grade: Grade)

  /** The reference after a run of readings: an unset reference (0.0, like
      Python's None) takes the next reading. */
  function Reference(init: real, readings: seq<real>): real
    decreases |readings|
  {
    if |readings| == 0 then init
    else Reference(if init == 0.0 then readings[0] else init, readings[1..])
  }

  predicate ZerosBefore(readings: seq<real>, k: int) {
    forall j :: 0 <= j < k && j < |readings| ==> readings[j] == 0.0
  }

  /** A set reference never changes; an unset one becomes the first nonzero
      reading, and stays unset while the readings are all zero. */
  lemma {:induction false} ReferenceIsFirstSet(init: real, readings: seq<real>)
    ensures init != 0.0 ==> Reference(init, readings) == init
    ensures init == 0.0 ==>
      (forall k :: 0 <= k < |readings| && readings[k] != 0.0 && ZerosBefore(readings, k) ==>
         Reference(init, readings) == readings[k])
    ensures (forall j :: 0 <= j < |readings| ==> readings[j] == 0.0) ==> Reference(init, readings) == init
    decreases |readings|
  {
    if |readings| > 0 {
      var next := if init == 0.0 then readings[0] else init;
      ReferenceIsFirstSet(next, readings[1..]);
      if init == 0.0 {
        forall k | 0 <= k < |readings| && readings[k] != 0.0 && ZerosBefore(readings, k)
          ensures Reference(init, readings) == readings[k]
        {
          if k > 0 {
            assert readings[0] == 0.0;
            assert readings[1..][k - 1] == readings[k];
            assert forall j :: 0 <= j < k - 1 ==> readings[1..][j] == readings[j + 1];
          }
        }
      }
    }
  }

  lemma {:induction false} ReferenceSnoc(init: real, readings: seq<real>, x: real)
    ensures Reference(init, readings + [x]) ==
      (var r := Reference(init, readings); if r == 0.0 then x else r)
    decreases |readings|
  {
    if |readings| == 0 {
      assert readings + [x] == [x];
      assert [x][1..] == [];
    } else {
      var next := if init == 0.0 then readings[0] else init;
      assert (readings + [x])[1..] == readings[1..] + [x];
      ReferenceSnoc(next, readings[1..], x);
    }
  }

  /** One pass over the further level ranges. `init` is the reference the
      pass starts from; the final reference is returned too, since the second
      pass continues with it. */
  method RangePass(ranges: seq<LevelRange>, readings: seq<real>, init: real)
    returns (rows: seq<RangeRow>, reference: real)
    requires |readings| == |ranges|
    ensures |rows| == |ranges|
    ensures reference == Reference(init, readings)
    ensures forall i :: 0 <= i < |rows| ==>
      && rows[i].range == ranges[i]
      && rows[i].reading == readings[i]
      && rows[i].expected == Reference(init, readings[..i + 1])
      && rows[i].deviation == rows[i].expected - readings[i]
      && rows[i].grade == LinearityGrade(rows[i].deviation, LinearityUncertainty)
      && rows[i].uncertainty == LinearityUncertainty
  {
    rows := [];
    reference := init;
    var i := 0;
    while i < |ranges|
      invariant 0 <= i <= |ranges|
      invariant |rows| == i
      invariant reference == Reference(init, readings[..i])
      invariant forall k :: 0 <= k < i ==>
        && rows[k].range == ranges[k]
        && rows[k].reading == readings[k]
        && rows[k].expected == Reference(init, readings[..k + 1])
        && rows[k].deviation == rows[k].expected - readings[k]
        && rows[k].grade == LinearityGrade(rows[k].deviation, LinearityUncertainty)
        && rows[k].uncertainty == LinearityUncertainty
    {
      var slm := readings[i];
      ReferenceSnoc(init, readings[..i], slm);
      assert readings[..i] + [slm] == readings[..i + 1];
      if reference == 0.0 {
        reference := slm;
      }
      var deviation := reference - slm;
      rows := rows + [RangeRow(ranges[i], reference, slm, deviation, LinearityUncertainty,
                               LinearityGrade(deviation, LinearityUncertainty))];
      i := i + 1;
    }
    assert readings[..i] == readings;
  }

  /** The level-range test, run only when more than one range is configured:
      a first pass over every range but the first, the attenuator read, and
      a second pass that keeps the first pass's reference. */
  method LevelRanges(ranges: seq<LevelRange>, first: seq<real>, attenuatorReply: string, second: seq<real>)
    returns (r: Result<(seq<RangeRow>, seq<RangeRow>, int), SweepError>)
    requires |ranges| > 1 ==> |first| == |ranges| - 1 && |second| == |ranges| - 1
    ensures |ranges| <= 1 ==> r == Ok(([], [], 0))
    ensures |ranges| > 1 ==> (r.Ok? <==> El100.Get(attenuatorReply).Ok?)
    ensures |ranges| > 1 && r.Ok? ==>
      var (pass1, pass2, atten) := r.value;
      && |pass1| == |pass2| == |ranges| - 1
      && atten == El100.Get(attenuatorReply).value
      && (forall i :: 0 <= i < |pass1| ==>
            && pass1[i].range == ranges[i + 1]
            && pass1[i].reading == first[i]
            && pass1[i].expected == Reference(0.0, first[..i + 1])
            && pass1[i].deviation == pass1[i].expected - first[i]
            && pass1[i].grade == LinearityGrade(pass1[i].deviation, LinearityUncertainty)
            && pass1[i].uncertainty == LinearityUncertainty)
      && (forall i :: 0 <= i < |pass2| ==>
            && pass2[i].range == ranges[i + 1]
            && pass2[i].reading == second[i]
            && pass2[i].expected == Reference(Reference(0.0, first), second[..i + 1])
            && pass2[i].deviation == pass2[i].expected - second[i]
            && pass2[i].grade == LinearityGrade(pass2[i].deviation, LinearityUncertainty)
            && pass2[i].uncertainty == LinearityUncertainty)
  {
    if |ranges| <= 1 {
      return Ok(([], [], 0));
    }
    var pass1, reference := RangePass(ranges[1..], first, 0.0);
    var read := ReadAttenuator(attenuatorReply);
    if read.Err? {
      return Err(read.error);
    }
    var pass2, _ := RangePass(ranges[1..], second, reference);
    return Ok((pass1, pass2, read.value));
  }

  /** A reading taken in the first pass is the expected value of every row
      of the second pass. */
  lemma SecondPassKeepsReference(first: seq<real>, second: seq<real>, i: nat)
    requires |first| > 0 && first[0] != 0.0
    requires i < |second|
    ensures Reference(Reference(0.0, first), second[..i + 1]) == first[0]
  {
    ReferenceIsFirstSet(0.0, first);
    ReferenceIsFirstSet(first[0], second[..i + 1]);
  }
}
