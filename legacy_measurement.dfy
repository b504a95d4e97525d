/**
 * The legacy measurement screen's controller (`MeasurementViewController`
 * and `SettingInfo` in Balance/ContentView.swift): while measuring, every
 * motion sample is recorded for the sensors enabled in the settings, one
 * value is plotted for it in a chart buffer of at most 100 points, and on
 * demand the recording is written out as CSV text.
 *
 * The blocks `MeasurementViewController` hands to the main queue are taken to run at once,
 * in order. The device-motion subscription is the field `receivingUpdates`.
 * Turning a `Double` into text is the parameter `format`.
 */
module LegacyMeasurement {
  import opened Optional
  import opened Motion
  import opened LegacyCsv
  import SessionMetrics
  import SensorMeasurement

  /** The sensor switches of the settings screen, all on at first. */
  class SettingInfo {
    var checkedSensor: seq<bool>

    ghost predicate Valid()
      reads this
    {
      |checkedSensor| == 4
    }

    constructor ()
      ensures Valid()
      ensures checkedSensor == [true, true, true, true]
    {
      checkedSensor := [true, true, true, true];
    }

    /** A tap on the settings row `index` flips that sensor's switch and no other. */
    method Toggle(index: nat)
      requires Valid() && index < |checkedSensor|
      modifies this`checkedSensor
      ensures Valid()
      ensures |checkedSensor| == |old(checkedSensor)|
      ensures checkedSensor[index] == !old(checkedSensor)[index]
      ensures forall k :: 0 <= k < |checkedSensor| && k != index ==> checkedSensor[k] == old(checkedSensor)[k]
    {
      checkedSensor := checkedSensor[index := !checkedSensor[index]];
    }
  }

  /** One chart point: seconds since the time base and the plotted value. */
  datatype GraphDataPoint = GraphDataPoint(time: real, value: real)

  /** The text shown as the screen's status line. */
  datatype Status = WaitingForMeasurement | DuringMeasurement | MotionUnavailable | EndOfMeasurement

  /** The chart buffer keeps at most this many points. */
  const GraphCapacity: nat := 100

  /** The shift added to the roll when the plotted value falls back to the attitude (no other sensor switched on). */
  const FallbackRollShift: real := 0.3

  // ---------------------------------------------------------------------
  // The plotted value

  /** The order in which the enabled sensors are consulted for the plotted value. */
  const PlotPriority: seq<nat> := [Acceleration, RotationRate, Gravity]

  /** The first sensor of `order` that is switched on, if any. */
  function FirstEnabled(flags: seq<bool>, order: seq<nat>): (r: Option<nat>)
    requires forall k :: 0 <= k < |order| ==> order[k] < |flags|
    ensures r.None? <==> forall k :: 0 <= k < |order| ==> !flags[order[k]]
    ensures r.Some? ==> exists j :: 0 <= j < |order| && order[j] == r.value && flags[r.value]
                          && forall k :: 0 <= k < j ==> !flags[order[k]]
  {
    if order == [] then None
    else if flags[order[0]] then Some(order[0])
    else
      var r := FirstEnabled(flags, order[1..]);
      if r.Some? then
        ghost var j :| 0 <= j < |order[1..]| && order[1..][j] == r.value && flags[r.value]
                       && forall k :: 0 <= k < j ==> !flags[order[1..][k]];
        assert order[j + 1] == r.value;
        r
      else r
  }

  /** The value the sensor `sensor` contributes to the chart. */
  function SensorValue(sensor: nat, m: DeviceMotion): real {
    if sensor == Acceleration then AbsSum(m.userAcceleration)
    else if sensor == RotationRate then AbsSum(m.rotationRate) * 0.3
    else m.gravity.z * m.gravity.z
  }

  /**
   * `updateGraphValue`'s rule: the acceleration if it is recorded, else the
   * weighted rotation rate, else the square of the gravity's z component,
   * else the roll plus 0.3. Only the last case can be negative.
   */
  function GraphValue(flags: seq<bool>, m: DeviceMotion): (r: real)
    requires |flags| == 4
    ensures flags[Acceleration] || flags[RotationRate] || flags[Gravity] ==> r >= 0.0
  {
    if flags[Acceleration] then AbsSum(m.userAcceleration)
    else if flags[RotationRate] then AbsSum(m.rotationRate) * 0.3
    else if flags[Gravity] then m.gravity.z * m.gravity.z
    else m.attitude.roll + FallbackRollShift
  }

  /** The plotted value is that of the first enabled sensor in priority order, or the shifted roll if none is. */
  lemma GraphValueFollowsPriority(flags: seq<bool>, m: DeviceMotion)
    requires |flags| == 4
    ensures GraphValue(flags, m) == match FirstEnabled(flags, PlotPriority)
                                      case Some(sensor) => SensorValue(sensor, m)
                                      case None => m.attitude.roll + FallbackRollShift
  {
    var rest := PlotPriority[1..];
    assert rest == [RotationRate, Gravity] && rest[1..] == [Gravity] && rest[1..][1..] == [];
    assert FirstEnabled(flags, [Gravity]) == if flags[Gravity] then Some(Gravity) else None;
    assert FirstEnabled(flags, rest) == if flags[RotationRate] then Some(RotationRate) else FirstEnabled(flags, [Gravity]);
  }

  /** Switching sensors of lower priority on or off does not change the plotted value. */
  lemma GraphValueOnlyLeadingSensor(flags1: seq<bool>, flags2: seq<bool>, m: DeviceMotion)
    requires |flags1| == 4 && |flags2| == 4
    requires FirstEnabled(flags1, PlotPriority) == FirstEnabled(flags2, PlotPriority)
    ensures GraphValue(flags1, m) == GraphValue(flags2, m)
  {
    GraphValueFollowsPriority(flags1, m);
    GraphValueFollowsPriority(flags2, m);
  }

  // ---------------------------------------------------------------------
  // The chart buffer

  /** The most recent `GraphCapacity` points of `points`, in arrival order. */
  function Recent(points: seq<GraphDataPoint>): (r: seq<GraphDataPoint>)
    ensures |r| <= GraphCapacity
  {
    if |points| <= GraphCapacity then points else points[|points| - GraphCapacity..]
  }

  /** The buffer holds the last min(100, n) points of the n made, oldest first. */
  lemma RecentIsSuffix(points: seq<GraphDataPoint>)
    ensures |Recent(points)| == SessionMetrics.Min(GraphCapacity, |points|)
    ensures forall k :: 0 <= k < |Recent(points)| ==> Recent(points)[k] == points[|points| - |Recent(points)| + k]
  {
  }

  /** The buffer after `append` and, once it outgrows the capacity, `removeFirst`. */
  function Push(buffer: seq<GraphDataPoint>, p: GraphDataPoint): seq<GraphDataPoint> {
    var b := buffer + [p];
    if |b| > GraphCapacity then b[1..] else b
  }

  /** A push never overfills the buffer, ends with the new point, and drops the oldest point only from a full buffer. */
  lemma PushBuffer(buffer: seq<GraphDataPoint>, p: GraphDataPoint)
    ensures |buffer| <= GraphCapacity ==> |Push(buffer, p)| <= GraphCapacity
    ensures Push(buffer, p) != [] && Push(buffer, p)[|Push(buffer, p)| - 1] == p
    ensures |buffer| < GraphCapacity ==> Push(buffer, p) == buffer + [p]
    ensures |buffer| == GraphCapacity ==> Push(buffer, p) == buffer[1..] + [p]
  {
  }

  /** Pushing each new point onto the buffer keeps exactly the most recent points. */
  lemma RecentAppend(points: seq<GraphDataPoint>, p: GraphDataPoint)
    ensures Recent(points + [p]) == Push(Recent(points), p)
  {
    var b := Recent(points) + [p];
    if |b| > GraphCapacity {
      assert Recent(points + [p]) == b[1..];
    } else {
      assert Recent(points + [p]) == b;
    }
  }

  /** A sensor's readings after one sample: one more reading per axis when it is switched on, unchanged otherwise. */
  function Recorded(on: bool, d: SensorData, vx: real, vy: real, vz: real): (r: SensorData)
    ensures d.Balanced() ==> r.Balanced()
  {
    if on then d.Append(vx, vy, vz) else d
  }

  /** Every sensor's three axes hold equally many readings. */
  predicate AllBalanced(accel: SensorData, rotate: SensorData, gravity: SensorData, attitude: SensorData) {
    accel.Balanced() && rotate.Balanced() && gravity.Balanced() && attitude.Balanced()
  }

  /**
   * The time base is the first nonzero of `timestamps` (0.0 while there is
   * none), and each timestamp's elapsed time is measured from the base in
   * force once it is taken in.
   */
  predicate TimeAgrees(timestamps: seq<real>, nowTime: real, elapsedTime: seq<real>) {
    && nowTime == SensorMeasurement.TimeBase(timestamps)
    && elapsedTime == SensorMeasurement.ElapsedTimes(timestamps)
  }

  /**
   * These are exactly the time base and elapsed times the newer manager's
   * `registData` keeps for the same samples.
   */
  lemma TimeAgreesReplay(samples: seq<DeviceMotion>, nowTime: real, elapsedTime: seq<real>)
    ensures TimeAgrees(SensorMeasurement.Timestamps(samples), nowTime, elapsedTime)
            <==> nowTime == SensorMeasurement.Replay(samples).nowTime
                 && elapsedTime == SensorMeasurement.Replay(samples).elapsedTime
  {
    SensorMeasurement.ReplayAgrees(samples);
  }

  // ---------------------------------------------------------------------
  // The controller

  class MeasurementViewController {
    const setting: SettingInfo

    var saveCompleteShowingAlert: bool
    var checkAirpodsShowingAlert: bool
    var isStartingMeasure: bool
    var status: Status
    var stopSave: bool
    var graphDataPoints: seq<GraphDataPoint>
    var graphValues: seq<real>

    var rawTime: seq<real>
    var elapsedTime: seq<real>
    var nowTime: real

    var accel: SensorData
    var rotate: SensorData
    var gravity: SensorData
    var attitude: SensorData

    /** Whether the device-motion handler is installed. */
    var receivingUpdates: bool

    /** Every chart point made since the last reset, of which the buffer keeps the most recent. */
    ghost var points: seq<GraphDataPoint>

    /** The timestamps registered since the last reset. */
    ghost var timestamps: seq<real>

    /**
     * The time base and the elapsed times follow the registered timestamps,
     * the chart buffer holds the most recent points, and every recorded
     * sensor reading fills all three axes.
     */
    ghost predicate Valid()
      reads this
    {
      && graphDataPoints == Recent(points)
      && TimeAgrees(timestamps, nowTime, elapsedTime)
      && AllBalanced(accel, rotate, gravity, attitude)
    }

    constructor (setting: SettingInfo)
      ensures Valid() && this.setting == setting
      ensures points == [] && rawTime == [] && graphValues == [] && nowTime == 0.0 && elapsedTime == []
      ensures status == WaitingForMeasurement
      ensures !isStartingMeasure && !stopSave && !receivingUpdates
      ensures !saveCompleteShowingAlert && !checkAirpodsShowingAlert
      ensures accel == NoReadings && rotate == NoReadings && gravity == NoReadings && attitude == NoReadings
    {
      this.setting := setting;
      saveCompleteShowingAlert := false;
      checkAirpodsShowingAlert := false;
      isStartingMeasure := false;
      status := WaitingForMeasurement;
      stopSave := false;
      graphDataPoints := [];
      graphValues := [];
      rawTime := [];
      elapsedTime := [];
      nowTime := 0.0;
      accel, rotate, gravity, attitude := NoReadings, NoReadings, NoReadings, NoReadings;
      receivingUpdates := false;
      points := [];
      timestamps := [];
    }

    /** `startCalc`: resets the recording (but not `rawTime`) and subscribes to motion updates when the device offers them. */
    method StartCalc(motionAvailable: bool)
      modifies this
      ensures Valid() && points == [] && timestamps == []
      ensures graphValues == [] && graphDataPoints == [] && elapsedTime == [] && nowTime == 0.0
      ensures accel == NoReadings && rotate == NoReadings && gravity == NoReadings && attitude == NoReadings
      ensures rawTime == old(rawTime)
      ensures !saveCompleteShowingAlert && stopSave == old(stopSave)
      ensures motionAvailable ==> isStartingMeasure && status == DuringMeasurement && receivingUpdates && !checkAirpodsShowingAlert
      ensures !motionAvailable ==> !isStartingMeasure && status == MotionUnavailable && checkAirpodsShowingAlert
                                   && receivingUpdates == old(receivingUpdates)
    {
      ResetMeasureStatus();
      isStartingMeasure := true;
      StartGettingData(motionAvailable);
    }

    method ResetMeasureStatus()
      modifies this`saveCompleteShowingAlert, this`checkAirpodsShowingAlert, this`graphValues, this`graphDataPoints,
               this`nowTime, this`elapsedTime, this`accel, this`rotate, this`attitude, this`gravity, this`points,
               this`timestamps
      ensures Valid() && points == [] && timestamps == []
      ensures !saveCompleteShowingAlert && !checkAirpodsShowingAlert
      ensures graphValues == [] && graphDataPoints == [] && nowTime == 0.0 && elapsedTime == []
      ensures accel == NoReadings && rotate == NoReadings && gravity == NoReadings && attitude == NoReadings
    {
      saveCompleteShowingAlert := false;
      checkAirpodsShowingAlert := false;
      graphValues := [];
      graphDataPoints := [];
      nowTime := 0.0;
      elapsedTime := [];
      accel := NoReadings;
      rotate := NoReadings;
      attitude := NoReadings;
      gravity := NoReadings;
      points := [];
      timestamps := [];
    }

    /** Without headphone motion the screen says so and raises its alert; otherwise the handler is installed. */
    method StartGettingData(motionAvailable: bool)
      modifies this`status, this`checkAirpodsShowingAlert, this`isStartingMeasure, this`receivingUpdates
      ensures !motionAvailable ==> status == MotionUnavailable && checkAirpodsShowingAlert && !isStartingMeasure
                                   && receivingUpdates == old(receivingUpdates)
      ensures motionAvailable ==> status == DuringMeasurement && receivingUpdates
                                  && checkAirpodsShowingAlert == old(checkAirpodsShowingAlert)
                                  && isStartingMeasure == old(isStartingMeasure)
    {
      if !motionAvailable {
        status := MotionUnavailable;
        checkAirpodsShowingAlert := true;
        isStartingMeasure := false;
        return;
      }
      status := DuringMeasurement;
      receivingUpdates := true;
    }

    /** The motion-update handler: deliveries with an error or without a sample, or while no handler is installed, are dropped. */
    method OnMotionUpdate(motion: Option<DeviceMotion>, failed: bool)
      requires Valid() && setting.Valid()
      modifies this
      ensures Valid()
      ensures !(receivingUpdates && !failed && motion.Some?) ==> unchanged(this)
      ensures old(receivingUpdates) && !failed && motion.Some? ==>
                var m := motion.value;
                && timestamps == old(timestamps) + [m.timestamp]
                && rawTime == old(rawTime) + [m.timestamp]
                && nowTime == (if old(nowTime) == 0.0 then m.timestamp else old(nowTime))
                && elapsedTime == old(elapsedTime) + [m.timestamp - nowTime]
                && graphValues == old(graphValues) + [GraphValue(setting.checkedSensor, m)]
                && points == old(points) + [GraphDataPoint(m.timestamp - nowTime, GraphValue(setting.checkedSensor, m))]
                && graphDataPoints[|graphDataPoints| - 1] == points[|points| - 1]
                && accel == Recorded(setting.checkedSensor[Acceleration], old(accel), m.userAcceleration.x, m.userAcceleration.y, m.userAcceleration.z)
                && gravity == Recorded(setting.checkedSensor[Gravity], old(gravity), m.gravity.x, m.gravity.y, m.gravity.z)
                && rotate == Recorded(setting.checkedSensor[RotationRate], old(rotate), m.rotationRate.x, m.rotationRate.y, m.rotationRate.z)
                && attitude == Recorded(setting.checkedSensor[AttitudeAngles], old(attitude), m.attitude.pitch, m.attitude.roll, m.attitude.yaw)
                && receivingUpdates && status == old(status) && isStartingMeasure == old(isStartingMeasure)
                && stopSave == old(stopSave) && saveCompleteShowingAlert == old(saveCompleteShowingAlert)
                && checkAirpodsShowingAlert == old(checkAirpodsShowingAlert)
    {
      if !receivingUpdates {
        return;
      }
      if failed {
        return;
      }
      if motion.None? {
        return;
      }
      RegistData(motion.value);
    }

    /** `registData`: records the sample, computes its plotted value, logs its time and adds its chart point. */
    method RegistData(m: DeviceMotion)
      requires Valid() && setting.Valid()
      modifies this`accel, this`gravity, this`rotate, this`attitude, this`graphValues, this`nowTime, this`rawTime,
               this`elapsedTime, this`graphDataPoints, this`points, this`timestamps
      ensures Valid()
      ensures timestamps == old(timestamps) + [m.timestamp]
      ensures rawTime == old(rawTime) + [m.timestamp]
      ensures nowTime == if old(nowTime) == 0.0 then m.timestamp else old(nowTime)
      ensures elapsedTime == old(elapsedTime) + [m.timestamp - nowTime]
      ensures graphValues == old(graphValues) + [GraphValue(setting.checkedSensor, m)]
      ensures points == old(points) + [GraphDataPoint(m.timestamp - nowTime, GraphValue(setting.checkedSensor, m))]
      ensures graphDataPoints[|graphDataPoints| - 1] == points[|points| - 1]
      ensures accel == Recorded(setting.checkedSensor[Acceleration], old(accel), m.userAcceleration.x, m.userAcceleration.y, m.userAcceleration.z)
      ensures gravity == Recorded(setting.checkedSensor[Gravity], old(gravity), m.gravity.x, m.gravity.y, m.gravity.z)
      ensures rotate == Recorded(setting.checkedSensor[RotationRate], old(rotate), m.rotationRate.x, m.rotationRate.y, m.rotationRate.z)
      ensures attitude == Recorded(setting.checkedSensor[AttitudeAngles], old(attitude), m.attitude.pitch, m.attitude.roll, m.attitude.yaw)
    {
      ghost var v := GraphValue(setting.checkedSensor, m);
      UpdateSensorData(m);
      UpdateGraphValue(m);
      UpdateTime(m.timestamp);
      ghost var p := GraphDataPoint(m.timestamp - nowTime, v);
      ghost var before := graphDataPoints;
      UpdateGraphDataPoints(m);
      assert graphDataPoints == Push(before, p);
      RecentAppend(points, p);
      points := points + [p];
    }

    /** `updateSensorData`: one reading per axis for every sensor switched on; the others are left alone. Attitude is stored as (pitch, roll, yaw). */
    method UpdateSensorData(m: DeviceMotion)
      requires setting.Valid()
      modifies this`accel, this`gravity, this`rotate, this`attitude
      ensures AllBalanced(old(accel), old(rotate), old(gravity), old(attitude)) ==> AllBalanced(accel, rotate, gravity, attitude)
      ensures accel == Recorded(setting.checkedSensor[Acceleration], old(accel), m.userAcceleration.x, m.userAcceleration.y, m.userAcceleration.z)
      ensures gravity == Recorded(setting.checkedSensor[Gravity], old(gravity), m.gravity.x, m.gravity.y, m.gravity.z)
      ensures rotate == Recorded(setting.checkedSensor[RotationRate], old(rotate), m.rotationRate.x, m.rotationRate.y, m.rotationRate.z)
      ensures attitude == Recorded(setting.checkedSensor[AttitudeAngles], old(attitude), m.attitude.pitch, m.attitude.roll, m.attitude.yaw)
    {
      if setting.checkedSensor[Acceleration] {
        accel := SensorData(accel.x + [m.userAcceleration.x], accel.y + [m.userAcceleration.y], accel.z + [m.userAcceleration.z]);
      }
      if setting.checkedSensor[Gravity] {
        gravity := SensorData(gravity.x + [m.gravity.x], gravity.y + [m.gravity.y], gravity.z + [m.gravity.z]);
      }
      if setting.checkedSensor[RotationRate] {
        rotate := SensorData(rotate.x + [m.rotationRate.x], rotate.y + [m.rotationRate.y], rotate.z + [m.rotationRate.z]);
      }
      if setting.checkedSensor[AttitudeAngles] {
        attitude := SensorData(attitude.x + [m.attitude.pitch], attitude.y + [m.attitude.roll], attitude.z + [m.attitude.yaw]);
      }
    }

    /** `updateGraphValue`: logs the sample's plotted value. */
    method UpdateGraphValue(m: DeviceMotion)
      requires setting.Valid()
      modifies this`graphValues
      ensures graphValues == old(graphValues) + [GraphValue(setting.checkedSensor, m)]
    {
      var value: real;
      if setting.checkedSensor[Acceleration] {
        value := Abs(m.userAcceleration.x) + Abs(m.userAcceleration.y) + Abs(m.userAcceleration.z);
      } else if setting.checkedSensor[RotationRate] {
        value := (Abs(m.rotationRate.x) + Abs(m.rotationRate.y) + Abs(m.rotationRate.z)) * 0.3;
      } else if setting.checkedSensor[Gravity] {
        value := m.gravity.z * m.gravity.z;
      } else {
        value := m.attitude.roll + FallbackRollShift;
      }
      assert value == GraphValue(setting.checkedSensor, m);
      graphValues := graphValues + [value];
    }

    /** `updateGraphDataPoints`: appends the sample's point at its elapsed time and drops the oldest point past the capacity. */
    method UpdateGraphDataPoints(m: DeviceMotion)
      requires setting.Valid()
      modifies this`graphDataPoints
      ensures graphDataPoints == Push(old(graphDataPoints), GraphDataPoint(m.timestamp - nowTime, GraphValue(setting.checkedSensor, m)))
    {
      var currentElapsedTime := m.timestamp - nowTime;
      var value: real;
      if setting.checkedSensor[Acceleration] {
        value := Abs(m.userAcceleration.x) + Abs(m.userAcceleration.y) + Abs(m.userAcceleration.z);
      } else if setting.checkedSensor[RotationRate] {
        value := (Abs(m.rotationRate.x) + Abs(m.rotationRate.y) + Abs(m.rotationRate.z)) * 0.3;
      } else if setting.checkedSensor[Gravity] {
        value := m.gravity.z * m.gravity.z;
      } else {
        value := m.attitude.roll + FallbackRollShift;
      }
      assert value == GraphValue(setting.checkedSensor, m);
      var dataPoint := GraphDataPoint(currentElapsedTime, value);

      graphDataPoints := graphDataPoints + [dataPoint];
      if |graphDataPoints| > GraphCapacity {
        graphDataPoints := graphDataPoints[1..];
      }
    }

    /** `updateTime`: the first nonzero timestamp becomes the time base; every timestamp is logged raw and as elapsed time. */
    method UpdateTime(t: real)
      modifies this`nowTime, this`rawTime, this`elapsedTime, this`timestamps
      ensures nowTime == if old(nowTime) == 0.0 then t else old(nowTime)
      ensures rawTime == old(rawTime) + [t]
      ensures elapsedTime == old(elapsedTime) + [t - nowTime]
      ensures timestamps == old(timestamps) + [t]
      ensures TimeAgrees(old(timestamps), old(nowTime), old(elapsedTime)) ==> TimeAgrees(timestamps, nowTime, elapsedTime)
    {
      SensorMeasurement.ElapsedTimesAppend(timestamps, t);
      timestamps := timestamps + [t];
      if nowTime == 0.0 {
        nowTime := t;
      }
      rawTime := rawTime + [t];
      elapsedTime := elapsedTime + [t - nowTime];
    }

    /**
     * `stopCalc`: unsubscribes. While the time base is still 0.0 (no nonzero
     * timestamp has arrived) the screen raises the headphone alert and waits
     * again; otherwise it ends the measurement and offers saving. The
     * recording itself is kept.
     */
    method StopCalc()
      modifies this`receivingUpdates, this`isStartingMeasure, this`checkAirpodsShowingAlert, this`status,
               this`stopSave, this`saveCompleteShowingAlert
      ensures !receivingUpdates && !isStartingMeasure
      ensures nowTime == 0.0 ==>
                checkAirpodsShowingAlert && status == WaitingForMeasurement
                && stopSave == old(stopSave) && saveCompleteShowingAlert == old(saveCompleteShowingAlert)
      ensures nowTime != 0.0 ==>
                status == EndOfMeasurement && stopSave && !saveCompleteShowingAlert
                && checkAirpodsShowingAlert == old(checkAirpodsShowingAlert)
    {
      receivingUpdates := false;
      isStartingMeasure := false;
      if nowTime == 0.0 {
        checkAirpodsShowingAlert := true;
        status := WaitingForMeasurement;
        return;
      }
      status := EndOfMeasurement;
      stopSave := true;
      saveCompleteShowingAlert := false;
    }

    /** `createCsv`: the header, a line break, then the data rows joined by line breaks. */
    method CreateCsv(format: real -> string) returns (csv: string)
      requires setting.Valid()
      ensures csv == CsvHeader(setting.checkedSensor) + "\n"
                     + JoinLines(CsvRows(format, rawTime, elapsedTime, EnabledGroups(setting.checkedSensor, accel, gravity, rotate, attitude)))
    {
      var title := TimeColumns;
      var dataRows := Zip2(Texts(rawTime, format), Texts(elapsedTime, format));
      ghost var groups: seq<SensorData> := [];
      TimeRows(format, rawTime, elapsedTime);

      if setting.checkedSensor[Acceleration] {
        title := title + AccelerationColumns;
        ZipGroupStep(format, rawTime, elapsedTime, groups, accel);
        dataRows := Zip2(dataRows, ZipSensorData(accel, format));
      }
      groups := AddGroup(groups, setting.checkedSensor[Acceleration], accel);
      if setting.checkedSensor[Gravity] {
        title := title + GravityColumns;
        ZipGroupStep(format, rawTime, elapsedTime, groups, gravity);
        dataRows := Zip2(dataRows, ZipSensorData(gravity, format));
      }
      groups := AddGroup(groups, setting.checkedSensor[Gravity], gravity);
      if setting.checkedSensor[RotationRate] {
        title := title + RotationColumns;
        ZipGroupStep(format, rawTime, elapsedTime, groups, rotate);
        dataRows := Zip2(dataRows, ZipSensorData(rotate, format));
      }
      groups := AddGroup(groups, setting.checkedSensor[RotationRate], rotate);
      if setting.checkedSensor[AttitudeAngles] {
        title := title + AttitudeColumns;
        ZipGroupStep(format, rawTime, elapsedTime, groups, attitude);
        dataRows := Zip2(dataRows, ZipSensorData(attitude, format));
      }
      groups := AddGroup(groups, setting.checkedSensor[AttitudeAngles], attitude);

      csv := title + "\n" + JoinLines(dataRows);
    }
  }
}
