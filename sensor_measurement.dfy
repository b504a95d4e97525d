/**
 * The live measurement pipeline (`SensorMeasurementManager` in
 * Balance/ViewModel/SensorMeasurementManager.swift): every motion sample of
 * the current session is scored, time-stamped against the session's first
 * timestamp and turned into a chart point; the chart shows the trailing ten
 * seconds while measuring and the whole trace once stopped.
 *
 * The blocks `SensorMeasurementManager` hands to the main queue are taken to run at once,
 * in order. The device-motion subscription is the field `receivingUpdates`:
 * the handler runs only while it is set.
 */
module SensorMeasurement {
  import opened Optional
  import opened Motion

  /** One entry of the score log. */
  datatype FocusData = FocusData(score: real, attitude: Attitude)

  /** One chart point: seconds since the session's time base, the plotted value, the attitude. */
  datatype GraphDataPoint = GraphDataPoint(time: real, value: real, attitude: Attitude)

  /** The live chart keeps the points of the trailing `DisplayWindow` seconds. */
  const DisplayWindow: real := 10.0

  /**
   * The focus score of a sample: the absolute acceleration components plus
   * the absolute rotation-rate components. It is never negative, and it is
   * zero exactly for a sample at rest.
   */
  function FocusScore(m: DeviceMotion): (r: real)
    ensures r >= 0.0
    ensures r == 0.0 <==> m.userAcceleration == Vector3(0.0, 0.0, 0.0) && m.rotationRate == Vector3(0.0, 0.0, 0.0)
  {
    var accelValue := AbsSum(m.userAcceleration);
    var rotateValue := AbsSum(m.rotationRate);
    assert accelValue + rotateValue == 0.0 ==> accelValue == 0.0 && rotateValue == 0.0;
    accelValue + rotateValue
  }

  /** The plotted value weighs rotation by 0.3, so it never exceeds the focus score and vanishes with it. */
  function GraphValue(m: DeviceMotion): (r: real)
    ensures 0.0 <= r <= FocusScore(m)
    ensures r == 0.0 <==> FocusScore(m) == 0.0
  {
    var accelValue := AbsSum(m.userAcceleration);
    var rotateValue := AbsSum(m.rotationRate);
    assert accelValue + rotateValue * 0.3 == 0.0 ==> accelValue == 0.0 && rotateValue == 0.0;
    accelValue + rotateValue * 0.3
  }

  function Timestamps(samples: seq<DeviceMotion>): (ts: seq<real>)
    ensures |ts| == |samples|
    ensures forall i :: 0 <= i < |samples| ==> ts[i] == samples[i].timestamp
  {
    seq(|samples|, i requires 0 <= i < |samples| => samples[i].timestamp)
  }

  predicate NonDecreasing(xs: seq<real>) {
    forall i, j :: 0 <= i < j < |xs| ==> xs[i] <= xs[j]
  }

  /**
   * The time base after the given timestamps, as `updateTime` keeps it: a
   * timestamp is taken as the base while the base is still 0.0.
   */
  function TimeBase(ts: seq<real>): real {
    if ts == [] then 0.0
    else
      var base := TimeBase(ts[..|ts| - 1]);
      if base == 0.0 then ts[|ts| - 1] else base
  }

  /** The elapsed time logged for each timestamp: the timestamp less the base in force once it is taken in. */
  function ElapsedTimes(ts: seq<real>): (r: seq<real>)
    ensures |r| == |ts|
  {
    seq(|ts|, i requires 0 <= i < |ts| => ts[i] - TimeBase(ts[..i + 1]))
  }

  lemma {:induction false} TimeBaseAllZero(ts: seq<real>)
    requires forall i :: 0 <= i < |ts| ==> ts[i] == 0.0
    ensures TimeBase(ts) == 0.0
  {
    if ts != [] {
      TimeBaseAllZero(ts[..|ts| - 1]);
    }
  }

  /** The time base is the first nonzero timestamp. */
  lemma {:induction false} TimeBaseFirstNonzero(ts: seq<real>, j: nat)
    requires j < |ts| && ts[j] != 0.0
    requires forall i :: 0 <= i < j ==> ts[i] == 0.0
    ensures TimeBase(ts) == ts[j]
  {
    var front := ts[..|ts| - 1];
    if j == |ts| - 1 {
      TimeBaseAllZero(front);
    } else {
      TimeBaseFirstNonzero(front, j);
    }
  }

  lemma ElapsedTimesAppend(ts: seq<real>, t: real)
    ensures TimeBase(ts + [t]) == if TimeBase(ts) == 0.0 then t else TimeBase(ts)
    ensures ElapsedTimes(ts + [t]) == ElapsedTimes(ts) + [t - TimeBase(ts + [t])]
  {
    assert (ts + [t])[..|ts|] == ts;
    assert (ts + [t])[..|ts| + 1] == ts + [t];
    forall i | 0 <= i < |ts|
      ensures ElapsedTimes(ts + [t])[i] == ElapsedTimes(ts)[i]
    {
      assert (ts + [t])[..i + 1] == ts[..i + 1];
    }
  }

  /** The first logged elapsed time is 0, whatever the first timestamp. */
  lemma FirstElapsedIsZero(ts: seq<real>)
    requires ts != []
    ensures ElapsedTimes(ts)[0] == 0.0
  {
    assert ts[..1] == [ts[0]];
    assert [ts[0]][..0] == [];
    assert TimeBase(ts[..1]) == ts[0];
  }

  /** With a nonzero first timestamp, every elapsed time is measured from that first one. */
  lemma ElapsedFromFirst(ts: seq<real>)
    requires ts != [] && ts[0] != 0.0
    ensures forall i :: 0 <= i < |ts| ==> ElapsedTimes(ts)[i] == ts[i] - ts[0]
  {
    forall i | 0 <= i < |ts|
      ensures ElapsedTimes(ts)[i] == ts[i] - ts[0]
    {
      TimeBaseFirstNonzero(ts[..i + 1], 0);
    }
  }

  /**
   * Non-decreasing timestamps give non-decreasing elapsed times, leading zero
   * timestamps included: they log 0, and so does the first nonzero one.
   */
  lemma {:induction false} ElapsedNonDecreasing(ts: seq<real>)
    requires NonDecreasing(ts)
    ensures NonDecreasing(ElapsedTimes(ts))
  {
    if ts != [] {
      var front, t := ts[..|ts| - 1], ts[|ts| - 1];
      assert front + [t] == ts;
      assert NonDecreasing(front) by {
        assert forall i :: 0 <= i < |front| ==> front[i] == ts[i];
      }
      ElapsedNonDecreasing(front);
      ElapsedTimesAppend(front, t);
      var e, b := ElapsedTimes(front), TimeBase(ts);
      if front != [] {
        var last := |front| - 1;
        assert front[..last + 1] == front;
        assert e[last] <= t - b by {
          if TimeBase(front) == 0.0 {
            TimeBaseZero(front);
          }
        }
        assert forall i :: 0 <= i < |front| ==> e[i] <= t - b by {
          assert forall i :: 0 <= i < |front| ==> e[i] <= e[last];
        }
      }
      assert ElapsedTimes(ts) == e + [t - b];
    }
  }

  /** The time base is still 0.0 exactly when every timestamp so far was 0.0. */
  lemma {:induction false} TimeBaseZero(ts: seq<real>)
    ensures TimeBase(ts) == 0.0 <==> forall k :: 0 <= k < |ts| ==> ts[k] == 0.0
  {
    if ts != [] {
      var front := ts[..|ts| - 1];
      TimeBaseZero(front);
      assert forall k :: 0 <= k < |front| ==> front[k] == ts[k];
    }
  }

  /** `filter { $0.time >= cutoff }` */
  function PointsSince(points: seq<GraphDataPoint>, cutoff: real): (r: seq<GraphDataPoint>)
    ensures |r| <= |points|
  {
    if points == [] then []
    else (if points[0].time >= cutoff then [points[0]] else []) + PointsSince(points[1..], cutoff)
  }

  /** The filter keeps exactly the points at or after the cutoff. */
  lemma {:induction false} PointsSinceMembers(points: seq<GraphDataPoint>, cutoff: real)
    ensures forall p :: p in PointsSince(points, cutoff) <==> p in points && p.time >= cutoff
  {
    if points != [] {
      PointsSinceMembers(points[1..], cutoff);
      assert points == [points[0]] + points[1..];
    }
  }

  /** A last point inside the window is the last point kept. */
  lemma {:induction false} PointsSinceKeepsLast(points: seq<GraphDataPoint>, cutoff: real)
    requires points != [] && points[|points| - 1].time >= cutoff
    ensures PointsSince(points, cutoff) != []
    ensures PointsSince(points, cutoff)[|PointsSince(points, cutoff)| - 1] == points[|points| - 1]
  {
    if |points| > 1 {
      PointsSinceKeepsLast(points[1..], cutoff);
    }
  }

  lemma {:induction false} PointsSinceAll(points: seq<GraphDataPoint>, cutoff: real)
    requires forall i :: 0 <= i < |points| ==> points[i].time >= cutoff
    ensures PointsSince(points, cutoff) == points
  {
    if points != [] {
      PointsSinceAll(points[1..], cutoff);
    }
  }

  /** The index of the first point at or after the cutoff (`|points|` when there is none). */
  function FirstSince(points: seq<GraphDataPoint>, cutoff: real): (k: nat)
    ensures k <= |points|
    ensures forall i :: 0 <= i < k ==> points[i].time < cutoff
    ensures k < |points| ==> points[k].time >= cutoff
  {
    if points == [] then 0
    else if points[0].time >= cutoff then 0
    else 1 + FirstSince(points[1..], cutoff)
  }

  predicate TimesNonDecreasing(points: seq<GraphDataPoint>) {
    forall i, j :: 0 <= i < j < |points| ==> points[i].time <= points[j].time
  }

  /** On a trace ordered by time the window is the contiguous suffix from the first point at or after the cutoff. */
  lemma {:induction false} PointsSinceSuffix(points: seq<GraphDataPoint>, cutoff: real)
    requires TimesNonDecreasing(points)
    ensures PointsSince(points, cutoff) == points[FirstSince(points, cutoff)..]
  {
    if points != [] {
      if points[0].time >= cutoff {
        PointsSinceAll(points, cutoff);
      } else {
        PointsSinceSuffix(points[1..], cutoff);
      }
    }
  }

  /** The score log the session should hold after the given samples. */
  function FocusLog(samples: seq<DeviceMotion>): (r: seq<FocusData>)
    ensures |r| == |samples|
  {
    seq(|samples|, i requires 0 <= i < |samples| => FocusData(FocusScore(samples[i]), samples[i].attitude))
  }

  /** The per-session logs the manager keeps. */
  datatype SessionLogs = SessionLogs(
    nowTime: real,
    elapsedTime: seq<real>,
    scores: seq<FocusData>,
    totalGraphDataPoints: seq<GraphDataPoint>)

  /** What `registData` does to the logs with one sample. */
  function Register(logs: SessionLogs, m: DeviceMotion): SessionLogs {
    var base := if logs.nowTime == 0.0 then m.timestamp else logs.nowTime;
    SessionLogs(
      base,
      logs.elapsedTime + [m.timestamp - base],
      logs.scores + [FocusData(FocusScore(m), m.attitude)],
      logs.totalGraphDataPoints + [GraphDataPoint(m.timestamp - base, GraphValue(m), m.attitude)])
  }

  /**
   * One `registData` step fixes the time base at the first nonzero
   * timestamp, keeps every earlier log entry, and appends one score, one
   * elapsed time and one chart point at that elapsed time.
   */
  lemma RegisterAppends(logs: SessionLogs, m: DeviceMotion)
    ensures var r := Register(logs, m);
            && (r.nowTime == 0.0 <==> logs.nowTime == 0.0 && m.timestamp == 0.0)
            && (logs.nowTime != 0.0 ==> r.nowTime == logs.nowTime)
            && |r.scores| == |logs.scores| + 1 && r.scores[..|logs.scores|] == logs.scores
            && |r.elapsedTime| == |logs.elapsedTime| + 1 && r.elapsedTime[..|logs.elapsedTime|] == logs.elapsedTime
            && |r.totalGraphDataPoints| == |logs.totalGraphDataPoints| + 1
            && r.totalGraphDataPoints[..|logs.totalGraphDataPoints|] == logs.totalGraphDataPoints
            && r.elapsedTime[|logs.elapsedTime|] == m.timestamp - r.nowTime
            && r.totalGraphDataPoints[|logs.totalGraphDataPoints|].time == r.elapsedTime[|logs.elapsedTime|]
  {
  }

  /** The logs after registering the given samples, one by one, into freshly reset logs. */
  function Replay(samples: seq<DeviceMotion>): SessionLogs {
    if samples == [] then SessionLogs(0.0, [], [], [])
    else Register(Replay(samples[..|samples| - 1]), samples[|samples| - 1])
  }

  lemma ReplayAppend(samples: seq<DeviceMotion>, m: DeviceMotion)
    ensures Replay(samples + [m]) == Register(Replay(samples), m)
  {
    assert (samples + [m])[..|samples|] == samples;
  }

  /**
   * What the logs mean: one score, one elapsed time against the session's
   * time base and one chart point at that time per sample.
   */
  ghost predicate LogsAgree(samples: seq<DeviceMotion>, logs: SessionLogs) {
    && logs.nowTime == TimeBase(Timestamps(samples))
    && logs.elapsedTime == ElapsedTimes(Timestamps(samples))
    && logs.scores == FocusLog(samples)
    && |logs.totalGraphDataPoints| == |samples|
    && forall i :: 0 <= i < |samples| ==>
         logs.totalGraphDataPoints[i] == GraphDataPoint(logs.elapsedTime[i], GraphValue(samples[i]), samples[i].attitude)
  }

  lemma LogsAgreeAppend(samples: seq<DeviceMotion>, logs: SessionLogs, m: DeviceMotion)
    requires LogsAgree(samples, logs)
    ensures LogsAgree(samples + [m], Register(logs, m))
  {
    var ts := Timestamps(samples);
    ElapsedTimesAppend(ts, m.timestamp);
    assert Timestamps(samples + [m]) == ts + [m.timestamp];
    assert FocusLog(samples + [m]) == FocusLog(samples) + [FocusData(FocusScore(m), m.attitude)];
  }

  /** Replaying a session's samples yields logs with exactly that meaning. */
  lemma {:induction false} ReplayAgrees(samples: seq<DeviceMotion>)
    ensures LogsAgree(samples, Replay(samples))
  {
    if samples != [] {
      var front, m := samples[..|samples| - 1], samples[|samples| - 1];
      ReplayAgrees(front);
      LogsAgreeAppend(front, Replay(front), m);
      assert front + [m] == samples;
      assert Replay(samples) == Register(Replay(front), m);
    }
  }

  /** With a clock that does not go back, the chart trace is ordered by time. */
  lemma ReplayOrderedTrace(samples: seq<DeviceMotion>)
    requires NonDecreasing(Timestamps(samples))
    ensures TimesNonDecreasing(Replay(samples).totalGraphDataPoints)
  {
    var logs := Replay(samples);
    ReplayAgrees(samples);
    ElapsedNonDecreasing(Timestamps(samples));
    forall i, j | 0 <= i < j < |logs.totalGraphDataPoints|
      ensures logs.totalGraphDataPoints[i].time <= logs.totalGraphDataPoints[j].time
    {
      assert logs.totalGraphDataPoints[i].time == logs.elapsedTime[i];
      assert logs.totalGraphDataPoints[j].time == logs.elapsedTime[j];
    }
  }

  /**
   * With a clock that does not go back, the live window over the trace is
   * the contiguous suffix from the first point inside it.
   */
  lemma LiveWindowIsSuffix(samples: seq<DeviceMotion>, cutoff: real)
    requires NonDecreasing(Timestamps(samples))
    ensures var trace := Replay(samples).totalGraphDataPoints;
            PointsSince(trace, cutoff) == trace[FirstSince(trace, cutoff)..]
  {
    ReplayOrderedTrace(samples);
    PointsSinceSuffix(Replay(samples).totalGraphDataPoints, cutoff);
  }

  class SensorMeasurementManager {
    var isStartingMeasure: bool
    var graphDataPoints: seq<GraphDataPoint>
    var rollOffset: real
    var pitchOffset: real
    var yawOffset: real

    var totalGraphDataPoints: seq<GraphDataPoint>
    var elapsedTime: seq<real>
    var scores: seq<FocusData>
    var nowTime: real
    var startedTime: Option<real>

    /** Whether the device-motion handler is installed. */
    var receivingUpdates: bool

    /** The samples registered since the last reset. */
    ghost var samples: seq<DeviceMotion>

    /**
     * The logs hold one entry per registered sample: its score, its elapsed
     * time against the session's time base, and its chart point at that time.
     */
    ghost predicate Valid()
      reads this
    {
      Logs() == Replay(samples)
    }

    /** The session logs as one value. */
    function Logs(): SessionLogs
      reads this
    {
      SessionLogs(nowTime, elapsedTime, scores, totalGraphDataPoints)
    }

    constructor ()
      ensures Valid() && samples == []
      ensures !isStartingMeasure && !receivingUpdates
      ensures graphDataPoints == [] && totalGraphDataPoints == []
      ensures rollOffset == 0.0 && pitchOffset == 0.0 && yawOffset == 0.0
      ensures startedTime == None
    {
      isStartingMeasure := false;
      graphDataPoints := [];
      rollOffset, pitchOffset, yawOffset := 0.0, 0.0, 0.0;
      totalGraphDataPoints := [];
      elapsedTime := [];
      scores := [];
      nowTime := 0.0;
      startedTime := None;
      receivingUpdates := false;
      samples := [];
    }

    /**
     * `startCalc` at time `now`: clears the session logs (not the chart
     * points on screen), records the start time and subscribes to motion
     * updates when the device offers them.
     */
    method StartCalc(now: real, motionAvailable: bool)
      modifies this
      ensures Valid() && samples == []
      ensures scores == [] && elapsedTime == [] && totalGraphDataPoints == [] && nowTime == 0.0
      ensures graphDataPoints == old(graphDataPoints)
      ensures startedTime == Some(now)
      ensures isStartingMeasure == motionAvailable
      ensures receivingUpdates == (motionAvailable || old(receivingUpdates))
      ensures rollOffset == old(rollOffset) && pitchOffset == old(pitchOffset) && yawOffset == old(yawOffset)
    {
      ResetMeasureStatus();
      startedTime := Some(now);
      isStartingMeasure := true;
      StartGettingData(motionAvailable);
    }

    method ResetMeasureStatus()
      modifies this`startedTime, this`scores, this`totalGraphDataPoints, this`nowTime, this`elapsedTime, this`samples
      ensures Valid() && samples == []
      ensures startedTime == None
      ensures scores == [] && totalGraphDataPoints == [] && nowTime == 0.0 && elapsedTime == []
    {
      startedTime := None;
      scores := [];
      totalGraphDataPoints := [];
      nowTime := 0.0;
      elapsedTime := [];
      samples := [];
    }

    /** Without device motion the measurement is marked as not running and no handler is installed. */
    method StartGettingData(motionAvailable: bool)
      modifies this`isStartingMeasure, this`receivingUpdates
      ensures !motionAvailable ==> !isStartingMeasure && receivingUpdates == old(receivingUpdates)
      ensures motionAvailable ==> isStartingMeasure == old(isStartingMeasure) && receivingUpdates
    {
      if !motionAvailable {
        isStartingMeasure := false;
        return;
      }
      receivingUpdates := true;
    }

    /**
     * The motion-update handler: a delivery that carries an error or no
     * sample is dropped, and so is every delivery while no handler is
     * installed; any other sample is registered.
     */
    method OnMotionUpdate(motion: Option<DeviceMotion>, failed: bool)
      requires Valid()
      modifies this
      ensures Valid()
      ensures !(receivingUpdates && !failed && motion.Some?) ==> unchanged(this)
      ensures old(receivingUpdates) && !failed && motion.Some? ==>
                && samples == old(samples) + [motion.value]
                && graphDataPoints == PointsSince(totalGraphDataPoints, elapsedTime[|elapsedTime| - 1] - DisplayWindow)
                && receivingUpdates && isStartingMeasure == old(isStartingMeasure)
                && startedTime == old(startedTime)
                && rollOffset == old(rollOffset) && pitchOffset == old(pitchOffset) && yawOffset == old(yawOffset)
    {
      if !receivingUpdates {
        return;
      }
      if failed {
        return;
      }
      if motion.None? {
        return;
      }
      RegistData(motion.value);
    }

    /** `registData`: one sample appends one score, one elapsed time and one chart point, then refilters the live window. */
    method RegistData(m: DeviceMotion)
      requires Valid()
      modifies this`scores, this`nowTime, this`elapsedTime, this`totalGraphDataPoints, this`graphDataPoints, this`samples
      ensures Valid()
      ensures samples == old(samples) + [m]
      ensures scores == old(scores) + [FocusData(FocusScore(m), m.attitude)]
      ensures nowTime == if old(nowTime) == 0.0 then m.timestamp else old(nowTime)
      ensures elapsedTime == old(elapsedTime) + [m.timestamp - nowTime]
      ensures totalGraphDataPoints == old(totalGraphDataPoints) + [GraphDataPoint(m.timestamp - nowTime, GraphValue(m), m.attitude)]
      ensures graphDataPoints == PointsSince(totalGraphDataPoints, m.timestamp - nowTime - DisplayWindow)
      ensures graphDataPoints != [] && graphDataPoints[|graphDataPoints| - 1] == totalGraphDataPoints[|totalGraphDataPoints| - 1]
    {
      ReplayAppend(samples, m);
      ghost var logs := Logs();
      CalculateFocusData(m);
      UpdateTime(m.timestamp);
      ghost var elapsed := m.timestamp - nowTime;
      UpdateGraphDataPoints(m);
      samples := samples + [m];
      assert Logs() == Register(logs, m);

      PointsSinceKeepsLast(totalGraphDataPoints, elapsed - DisplayWindow);
    }

    /** `calculateFocusData`: appends the sample's score and attitude to the score log. */
    method CalculateFocusData(m: DeviceMotion)
      modifies this`scores
      ensures scores == old(scores) + [FocusData(FocusScore(m), m.attitude)]
    {
      var accelValue := AbsSum(m.userAcceleration);
      var rotateValue := AbsSum(m.rotationRate);
      var score := accelValue + rotateValue;
      scores := scores + [FocusData(score, m.attitude)];
    }

    /** `updateGraphDataPoints`: appends the point at the current elapsed time and keeps the trailing ten seconds on screen. */
    method UpdateGraphDataPoints(m: DeviceMotion)
      modifies this`totalGraphDataPoints, this`graphDataPoints
      ensures totalGraphDataPoints == old(totalGraphDataPoints) + [GraphDataPoint(m.timestamp - nowTime, GraphValue(m), m.attitude)]
      ensures graphDataPoints == PointsSince(totalGraphDataPoints, m.timestamp - nowTime - DisplayWindow)
    {
      var currentElapsedTime := m.timestamp - nowTime;
      var accelValue := AbsSum(m.userAcceleration);
      var rotateValue := AbsSum(m.rotationRate) * 0.3;
      var combinedValue := accelValue + rotateValue;
      var dataPoint := GraphDataPoint(currentElapsedTime, combinedValue, m.attitude);

      totalGraphDataPoints := totalGraphDataPoints + [dataPoint];
      var tenSecondsAgo := currentElapsedTime - DisplayWindow;
      graphDataPoints := PointsSince(totalGraphDataPoints, tenSecondsAgo);
    }

    /** `updateTime`: the first nonzero timestamp becomes the time base; each timestamp logs its distance from it. */
    method UpdateTime(t: real)
      modifies this`nowTime, this`elapsedTime
      ensures nowTime == if old(nowTime) == 0.0 then t else old(nowTime)
      ensures elapsedTime == old(elapsedTime) + [t - nowTime]
    {
      if nowTime == 0.0 {
        nowTime := t;
      }
      elapsedTime := elapsedTime + [t - nowTime];
    }

    /** `stopCalc`: unsubscribes, shows the whole trace and marks the measurement as stopped. */
    method StopCalc()
      requires Valid()
      modifies this
      ensures Valid()
      ensures graphDataPoints == totalGraphDataPoints
      ensures !isStartingMeasure && !receivingUpdates
      ensures samples == old(samples) && scores == old(scores) && totalGraphDataPoints == old(totalGraphDataPoints)
      ensures elapsedTime == old(elapsedTime) && nowTime == old(nowTime) && startedTime == old(startedTime)
      ensures rollOffset == old(rollOffset) && pitchOffset == old(pitchOffset) && yawOffset == old(yawOffset)
    {
      receivingUpdates := false;
      graphDataPoints := totalGraphDataPoints;
      isStartingMeasure := false;
    }

    /**
     * The head angles the emoji view shows: the last point's attitude less
     * the offsets, 0 without points. `ResetOrientation` states what a reset
     * does to them.
     */
    function DisplayedRoll(): (angle: real)
      reads this
      ensures graphDataPoints == [] ==> angle == 0.0
      ensures graphDataPoints != [] ==> angle + rollOffset == graphDataPoints[|graphDataPoints| - 1].attitude.roll
    {
      if graphDataPoints == [] then 0.0 else graphDataPoints[|graphDataPoints| - 1].attitude.roll - rollOffset
    }

    function DisplayedPitch(): (angle: real)
      reads this
      ensures graphDataPoints == [] ==> angle == 0.0
      ensures graphDataPoints != [] ==> angle + pitchOffset == graphDataPoints[|graphDataPoints| - 1].attitude.pitch
    {
      if graphDataPoints == [] then 0.0 else graphDataPoints[|graphDataPoints| - 1].attitude.pitch - pitchOffset
    }

    function DisplayedYaw(): (angle: real)
      reads this
      ensures graphDataPoints == [] ==> angle == 0.0
      ensures graphDataPoints != [] ==> angle + yawOffset == graphDataPoints[|graphDataPoints| - 1].attitude.yaw
    {
      if graphDataPoints == [] then 0.0 else graphDataPoints[|graphDataPoints| - 1].attitude.yaw - yawOffset
    }

    /** `resetOrientation`: the current head attitude becomes the zero of the displayed angles. */
    method ResetOrientation()
      modifies this`rollOffset, this`pitchOffset, this`yawOffset
      ensures graphDataPoints == [] ==>
                rollOffset == old(rollOffset) && pitchOffset == old(pitchOffset) && yawOffset == old(yawOffset)
      ensures graphDataPoints != [] ==>
                && rollOffset == graphDataPoints[|graphDataPoints| - 1].attitude.roll
                && pitchOffset == graphDataPoints[|graphDataPoints| - 1].attitude.pitch
                && yawOffset == graphDataPoints[|graphDataPoints| - 1].attitude.yaw
      ensures DisplayedRoll() == 0.0 && DisplayedPitch() == 0.0 && DisplayedYaw() == 0.0
    {
      if graphDataPoints == [] {
        return;
      }
      var lastPoint := graphDataPoints[|graphDataPoints| - 1];
      rollOffset := lastPoint.attitude.roll;
      pitchOffset := lastPoint.attitude.pitch;
      yawOffset := lastPoint.attitude.yaw;
    }
  }
}
