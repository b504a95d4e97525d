/**
 * The CSV text the legacy measurement screen writes out
 * (`createCsv`, `zipSensorData` and `zip2Array` in Balance/ContentView.swift):
 * a header naming the recorded columns, then one line per sample holding its
 * raw timestamp, its elapsed time and the readings of every recorded sensor.
 * Turning a `Double` into text is the parameter `format`.
 */
module LegacyCsv {
  import SessionMetrics

  /** Positions of the sensor switches in `checkedSensor`. */
  const Acceleration: nat := 0
  const Gravity: nat := 1
  const RotationRate: nat := 2
  const AttitudeAngles: nat := 3

  /** The readings of one sensor, one sequence per axis. */
  datatype SensorData = SensorData(x: seq<real>, y: seq<real>, z: seq<real>) {
    /** Every reading fills all three axes. */
    predicate Balanced() {
      |x| == |y| == |z|
    }

    function Append(vx: real, vy: real, vz: real): (d: SensorData)
      ensures Balanced() ==> d.Balanced()
    {
      SensorData(x + [vx], y + [vy], z + [vz])
    }
  }

  const NoReadings := SensorData([], [], [])

  function Texts(xs: seq<real>, format: real -> string): (r: seq<string>)
    ensures |r| == |xs| && forall i :: 0 <= i < |xs| ==> r[i] == format(xs[i])
  {
    seq(|xs|, i requires 0 <= i < |xs| => format(xs[i]))
  }

  /** `zip2Array`: pairs the entries up to the shorter length, each pair written "a, b". */
  function Zip2(a: seq<string>, b: seq<string>): (r: seq<string>)
    ensures |r| == SessionMetrics.Min(|a|, |b|)
    ensures forall i :: 0 <= i < |r| ==> r[i] == a[i] + ", " + b[i]
  {
    if a == [] || b == [] then []
    else [a[0] + ", " + b[0]] + Zip2(a[1..], b[1..])
  }

  /** The number of complete readings of a sensor. */
  function SensorLength(d: SensorData): nat {
    SessionMetrics.Min(SessionMetrics.Min(|d.x|, |d.y|), |d.z|)
  }

  /** The text of reading `i` of a sensor: "x, y, z". */
  function SensorRow(d: SensorData, i: nat, format: real -> string): string
    requires i < SensorLength(d)
  {
    format(d.x[i]) + ", " + format(d.y[i]) + ", " + format(d.z[i])
  }

  /** `zipSensorData`: one "x, y, z" row per complete reading. */
  function ZipSensorData(d: SensorData, format: real -> string): (r: seq<string>)
    ensures |r| == SensorLength(d)
    ensures forall i :: 0 <= i < |r| ==> r[i] == SensorRow(d, i, format)
  {
    Zip2(Zip2(Texts(d.x, format), Texts(d.y, format)), Texts(d.z, format))
  }

  /** The sensors written to the CSV file, in column order: acceleration, gravity, rotation rate, attitude. */
  function EnabledGroups(flags: seq<bool>, accel: SensorData, gravity: SensorData, rotate: SensorData, attitude: SensorData)
    : (groups: seq<SensorData>)
    requires |flags| == 4
    ensures |groups| == EnabledCount(flags)
  {
    var withAcceleration := AddGroup([], flags[Acceleration], accel);
    var withGravity := AddGroup(withAcceleration, flags[Gravity], gravity);
    var withRotation := AddGroup(withGravity, flags[RotationRate], rotate);
    AddGroup(withRotation, flags[AttitudeAngles], attitude)
  }

  function AddGroup(groups: seq<SensorData>, on: bool, d: SensorData): (r: seq<SensorData>)
    ensures |r| == |groups| + (if on then 1 else 0)
  {
    if on then groups + [d] else groups
  }

  function EnabledCount(flags: seq<bool>): nat
    requires |flags| == 4
  {
    (if flags[0] then 1 else 0) + (if flags[1] then 1 else 0) + (if flags[2] then 1 else 0) + (if flags[3] then 1 else 0)
  }

  /** A column group of the header: ", a, b, d". */
  function ColumnGroup(a: string, b: string, d: string): string {
    ", " + a + ", " + b + ", " + d
  }

  /** The two time columns: "a, b". */
  function ColumnPair(a: string, b: string): string {
    a + ", " + b
  }

  const TimeColumns := ColumnPair("time", "elapsedTime")
  const AccelerationColumns := ColumnGroup("Acceleration_x", "Acceleration_y", "Acceleration_z")
  const GravityColumns := ColumnGroup("Gravity_x", "Gravity_y", "Gravity_z")
  const RotationColumns := ColumnGroup("Rotation_x", "Rotation_y", "Rotation_z")
  const AttitudeColumns := ColumnGroup("pitch", "roll", "yaw")

  /** The header line: the two time columns, then three columns per recorded sensor. */
  function CsvHeader(flags: seq<bool>): string
    requires |flags| == 4
  {
    var withAcceleration := AddColumns(TimeColumns, flags[Acceleration], AccelerationColumns);
    var withGravity := AddColumns(withAcceleration, flags[Gravity], GravityColumns);
    var withRotation := AddColumns(withGravity, flags[RotationRate], RotationColumns);
    AddColumns(withRotation, flags[AttitudeAngles], AttitudeColumns)
  }

  function AddColumns(title: string, on: bool, columns: string): string {
    if on then title + columns else title
  }

  /**
   * The header always opens with the time columns; with every switch off it is
   * only those, and with every switch on the groups follow in the order
   * acceleration, gravity, rotation, attitude.
   */
  lemma CsvHeaderColumns(flags: seq<bool>)
    requires |flags| == 4
    ensures TimeColumns <= CsvHeader(flags)
    ensures flags == [false, false, false, false] ==> CsvHeader(flags) == TimeColumns
    ensures flags == [true, true, true, true] ==>
              CsvHeader(flags) == TimeColumns + AccelerationColumns + GravityColumns + RotationColumns + AttitudeColumns
  {
    var withAcceleration := AddColumns(TimeColumns, flags[Acceleration], AccelerationColumns);
    var withGravity := AddColumns(withAcceleration, flags[Gravity], GravityColumns);
    var withRotation := AddColumns(withGravity, flags[RotationRate], RotationColumns);
    AddColumnsPrefix(TimeColumns, flags[Acceleration], AccelerationColumns);
    AddColumnsPrefix(withAcceleration, flags[Gravity], GravityColumns);
    AddColumnsPrefix(withGravity, flags[RotationRate], RotationColumns);
    AddColumnsPrefix(withRotation, flags[AttitudeAngles], AttitudeColumns);
  }

  lemma AddColumnsPrefix(title: string, on: bool, columns: string)
    ensures title <= AddColumns(title, on, columns)
  {
    if on {
      assert (title + columns)[..|title|] == title;
    }
  }

  /** The number of data rows: the shortest of the time columns and of every written sensor. */
  function RowLimit(n: nat, groups: seq<SensorData>): (r: nat)
    ensures r <= n
    ensures forall g :: g in groups ==> r <= SensorLength(g)
    ensures r == n || exists g :: g in groups && r == SensorLength(g)
  {
    if groups == [] then n
    else
      var front := groups[..|groups| - 1];
      assert forall g :: g in groups ==> g in front || g == groups[|groups| - 1];
      SessionMetrics.Min(RowLimit(n, front), SensorLength(groups[|groups| - 1]))
  }

  /** Data row `i`: its raw timestamp, its elapsed time, then ", x, y, z" per written sensor. */
  function CsvRow(format: real -> string, rawTime: seq<real>, elapsedTime: seq<real>, groups: seq<SensorData>, i: nat)
    : string
    requires i < |rawTime| && i < |elapsedTime|
    requires forall g :: g in groups ==> i < SensorLength(g)
  {
    if groups == [] then format(rawTime[i]) + ", " + format(elapsedTime[i])
    else
      var front := groups[..|groups| - 1];
      assert forall g :: g in front ==> g in groups;
      CsvRow(format, rawTime, elapsedTime, front, i) + ", " + SensorRow(groups[|groups| - 1], i, format)
  }

  /** The data rows of the CSV text, as many as the shortest of the time columns and of every written sensor. */
  function CsvRows(format: real -> string, rawTime: seq<real>, elapsedTime: seq<real>, groups: seq<SensorData>)
    : (rows: seq<string>)
    ensures |rows| == RowLimit(SessionMetrics.Min(|rawTime|, |elapsedTime|), groups)
  {
    var n := RowLimit(SessionMetrics.Min(|rawTime|, |elapsedTime|), groups);
    seq(n, i requires 0 <= i < n => CsvRow(format, rawTime, elapsedTime, groups, i))
  }

  /** `joined(separator: "\n")`. */
  function JoinLines(rows: seq<string>): string {
    if rows == [] then ""
    else if |rows| == 1 then rows[0]
    else rows[0] + "\n" + JoinLines(rows[1..])
  }

  /** The number of times `c` occurs in `s`. */
  function Occurrences(c: char, s: string): nat {
    if s == [] then 0 else (if s[0] == c then 1 else 0) + Occurrences(c, s[1..])
  }

  lemma {:induction false} OccurrencesAppend(c: char, a: string, b: string)
    ensures Occurrences(c, a + b) == Occurrences(c, a) + Occurrences(c, b)
  {
    if a == [] {
      assert a + b == b;
    } else {
      assert (a + b)[0] == a[0];
      assert (a + b)[1..] == a[1..] + b;
      OccurrencesAppend(c, a[1..], b);
    }
  }

  lemma {:induction false} Absent(c: char, s: string)
    requires c !in s
    ensures Occurrences(c, s) == 0
  {
    if s != [] {
      assert s == [s[0]] + s[1..];
      Absent(c, s[1..]);
    }
  }

  /** Three comma-free texts joined by ", " hold two commas. */
  lemma JoinedThree(a: string, b: string, d: string)
    requires Occurrences(',', a) == 0 && Occurrences(',', b) == 0 && Occurrences(',', d) == 0
    ensures Occurrences(',', a + ", " + b + ", " + d) == 2
  {
    assert Occurrences(',', ", ") == 1;
    OccurrencesAppend(',', a, ", ");
    OccurrencesAppend(',', a + ", ", b);
    OccurrencesAppend(',', a + ", " + b, ", ");
    OccurrencesAppend(',', a + ", " + b + ", ", d);
  }

  /** A column group ", a, b, d" of comma-free names holds three commas. */
  lemma LedThree(a: string, b: string, d: string)
    requires ',' !in a && ',' !in b && ',' !in d
    ensures Occurrences(',', ColumnGroup(a, b, d)) == 3
  {
    Absent(',', a);
    Absent(',', b);
    Absent(',', d);
    JoinedThree(a, b, d);
    assert ColumnGroup(a, b, d) == ", " + (a + ", " + b + ", " + d);
    OccurrencesAppend(',', ", ", a + ", " + b + ", " + d);
  }

  /** Zipping the rows so far with one more sensor's rows adds that sensor's columns. */
  lemma ZipGroupStep(format: real -> string, rawTime: seq<real>, elapsedTime: seq<real>, groups: seq<SensorData>, g: SensorData)
    ensures Zip2(CsvRows(format, rawTime, elapsedTime, groups), ZipSensorData(g, format))
         == CsvRows(format, rawTime, elapsedTime, groups + [g])
  {
    var next := groups + [g];
    assert next[..|next| - 1] == groups;
    var rows := CsvRows(format, rawTime, elapsedTime, groups);
    var a := Zip2(rows, ZipSensorData(g, format));
    var b := CsvRows(format, rawTime, elapsedTime, next);
    assert |a| == |b|;
    forall i | 0 <= i < |a|
      ensures a[i] == b[i]
    {
      assert rows[i] == CsvRow(format, rawTime, elapsedTime, groups, i);
      assert b[i] == CsvRow(format, rawTime, elapsedTime, groups, i) + ", " + SensorRow(g, i, format);
    }
  }

  /** The two time columns alone are the rows before any sensor is added. */
  lemma TimeRows(format: real -> string, rawTime: seq<real>, elapsedTime: seq<real>)
    ensures Zip2(Texts(rawTime, format), Texts(elapsedTime, format)) == CsvRows(format, rawTime, elapsedTime, [])
  {
    var a := Zip2(Texts(rawTime, format), Texts(elapsedTime, format));
    var b := CsvRows(format, rawTime, elapsedTime, []);
    assert |a| == |b|;
    forall i | 0 <= i < |a|
      ensures a[i] == b[i]
    {
      assert b[i] == CsvRow(format, rawTime, elapsedTime, [], i);
    }
  }

  /** A file with at least one row has one line break fewer than it has rows, when no row holds a line break. */
  lemma {:induction false} JoinLinesBreaks(rows: seq<string>)
    requires forall k :: 0 <= k < |rows| ==> Occurrences('\n', rows[k]) == 0
    ensures Occurrences('\n', JoinLines(rows)) == if rows == [] then 0 else |rows| - 1
  {
    if |rows| > 1 {
      JoinLinesBreaks(rows[1..]);
      OccurrencesAppend('\n', rows[0], "\n");
      OccurrencesAppend('\n', rows[0] + "\n", JoinLines(rows[1..]));
    }
  }

  /** Data row `i` holds one comma between the time columns and three per written sensor, when the number text holds none. */
  lemma {:induction false} CsvRowCommas(format: real -> string, rawTime: seq<real>, elapsedTime: seq<real>,
                                        groups: seq<SensorData>, i: nat)
    requires i < |rawTime| && i < |elapsedTime|
    requires forall g :: g in groups ==> i < SensorLength(g)
    requires forall v :: Occurrences(',', format(v)) == 0
    ensures Occurrences(',', CsvRow(format, rawTime, elapsedTime, groups, i)) == 1 + 3 * |groups|
  {
    assert Occurrences(',', ", ") == 1;
    if groups == [] {
      OccurrencesAppend(',', format(rawTime[i]), ", ");
      OccurrencesAppend(',', format(rawTime[i]) + ", ", format(elapsedTime[i]));
      var t, e := rawTime[i], elapsedTime[i];
      assert Occurrences(',', format(t)) == 0;
      assert Occurrences(',', format(e)) == 0;
    } else {
      var front := groups[..|groups| - 1];
      assert forall g :: g in front ==> g in groups;
      CsvRowCommas(format, rawTime, elapsedTime, front, i);
      var d := groups[|groups| - 1];
      assert d in groups;
      assert i < |d.x| && i < |d.y| && i < |d.z|;
      var row := CsvRow(format, rawTime, elapsedTime, front, i);
      JoinedThree(format(d.x[i]), format(d.y[i]), format(d.z[i]));
      OccurrencesAppend(',', row, ", ");
      OccurrencesAppend(',', row + ", ", SensorRow(d, i, format));
    }
  }

  /** The time columns hold one comma, and each sensor column group three. */
  lemma ColumnLiteralsCommas()
    ensures Occurrences(',', TimeColumns) == 1
    ensures Occurrences(',', AccelerationColumns) == 3
    ensures Occurrences(',', GravityColumns) == 3
    ensures Occurrences(',', RotationColumns) == 3
    ensures Occurrences(',', AttitudeColumns) == 3
  {
    TimeColumnsCommas();
    AccelerationColumnsCommas();
    GravityColumnsCommas();
    RotationColumnsCommas();
    AttitudeColumnsCommas();
  }

  // One helper per literal keeps each comma count a small proof of its own.

  lemma TimeColumnsCommas()
    ensures Occurrences(',', TimeColumns) == 1
  {
    PairCommas("time", "elapsedTime");
  }

  lemma AccelerationColumnsCommas()
    ensures Occurrences(',', AccelerationColumns) == 3
  {
    LedThree("Acceleration_x", "Acceleration_y", "Acceleration_z");
  }

  lemma GravityColumnsCommas()
    ensures Occurrences(',', GravityColumns) == 3
  {
    LedThree("Gravity_x", "Gravity_y", "Gravity_z");
  }

  lemma RotationColumnsCommas()
    ensures Occurrences(',', RotationColumns) == 3
  {
    LedThree("Rotation_x", "Rotation_y", "Rotation_z");
  }

  lemma AttitudeColumnsCommas()
    ensures Occurrences(',', AttitudeColumns) == 3
  {
    LedThree("pitch", "roll", "yaw");
  }

  lemma PairCommas(a: string, b: string)
    requires ',' !in a && ',' !in b
    ensures Occurrences(',', ColumnPair(a, b)) == 1
  {
    Absent(',', a);
    Absent(',', b);
    assert Occurrences(',', ", ") == 1;
    OccurrencesAppend(',', a, ", ");
    OccurrencesAppend(',', a + ", ", b);
  }

  /** Adding a column group adds its commas to the header. */
  lemma AddColumnsCommas(title: string, on: bool, columns: string)
    ensures Occurrences(',', AddColumns(title, on, columns)) == Occurrences(',', title) + if on then Occurrences(',', columns) else 0
  {
    OccurrencesAppend(',', title, columns);
  }

  /** The header holds one comma between the time columns and three per written sensor. */
  lemma HeaderCommas(flags: seq<bool>)
    requires |flags| == 4
    ensures Occurrences(',', CsvHeader(flags)) == 1 + 3 * EnabledCount(flags)
  {
    ColumnLiteralsCommas();
    var withAcceleration := AddColumns(TimeColumns, flags[Acceleration], AccelerationColumns);
    var withGravity := AddColumns(withAcceleration, flags[Gravity], GravityColumns);
    var withRotation := AddColumns(withGravity, flags[RotationRate], RotationColumns);
    AddColumnsCommas(TimeColumns, flags[Acceleration], AccelerationColumns);
    AddColumnsCommas(withAcceleration, flags[Gravity], GravityColumns);
    AddColumnsCommas(withGravity, flags[RotationRate], RotationColumns);
    AddColumnsCommas(withRotation, flags[AttitudeAngles], AttitudeColumns);
  }

  /**
   * Every data row has as many columns as the header: each holds one comma
   * between the time columns and three per written sensor, when the number
   * text holds no comma.
   */
  lemma CsvColumnsAgree(flags: seq<bool>, format: real -> string, rawTime: seq<real>, elapsedTime: seq<real>,
                        accel: SensorData, gravity: SensorData, rotate: SensorData, attitude: SensorData, i: nat)
    requires |flags| == 4
    requires forall v :: Occurrences(',', format(v)) == 0
    requires i < |CsvRows(format, rawTime, elapsedTime, EnabledGroups(flags, accel, gravity, rotate, attitude))|
    ensures Occurrences(',', CsvRows(format, rawTime, elapsedTime, EnabledGroups(flags, accel, gravity, rotate, attitude))[i])
         == Occurrences(',', CsvHeader(flags))
  {
    HeaderCommas(flags);
    var groups := EnabledGroups(flags, accel, gravity, rotate, attitude);
    var rows := CsvRows(format, rawTime, elapsedTime, groups);
    assert rows[i] == CsvRow(format, rawTime, elapsedTime, groups, i);
    CsvRowCommas(format, rawTime, elapsedTime, groups, i);
  }

  /** When the time columns and every written sensor hold `n` readings, the file has `n` data rows. */
  lemma FullRecordingRows(format: real -> string, rawTime: seq<real>, elapsedTime: seq<real>, groups: seq<SensorData>, n: nat)
    requires |rawTime| == n && |elapsedTime| == n
    requires forall g :: g in groups ==> SensorLength(g) == n
    ensures |CsvRows(format, rawTime, elapsedTime, groups)| == n
  {
  }

}
