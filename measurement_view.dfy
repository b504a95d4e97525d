/**
 * The measuring screen (`MeasurementView` in Balance/View/MeasurementView.swift):
 * it classifies the displayed focus score into five states, sounds an alert
 * when the state drops to the lowest one, and on "finish" stops the
 * measurement, stores the session and shows its focus minutes.
 *
 * The displayed score is an input: whatever produces it is not part of this
 * model. Audio playback is reduced to the decision whether the alert plays,
 * the clock to a parameter `now`, a new session's UUID to a parameter
 * `identifier`, and the asynchronous save to the session value handed over.
 */
module MeasurementView {
  import opened Optional
  import opened SessionMetrics
  import opened SensorMeasurement

  /** The five bands of the displayed focus score, from very high to very low. */
  datatype FocusState = State100 | State80 | State60 | State40 | State20

  /** The rank of a state: 0 for `State20` up to 4 for `State100`. */
  function Rank(s: FocusState): nat {
    match s
    case State20 => 0
    case State40 => 1
    case State60 => 2
    case State80 => 3
    case State100 => 4
  }

  /**
   * `FocusState(displayedFocusScore:)`: bands of width 20 with closed lower
   * ends; below 20 is `State20`, 80 and above is `State100`.
   */
  function FocusStateOf(displayedFocusScore: real): (s: FocusState)
    ensures s == State20 <==> displayedFocusScore < 20.0
    ensures s == State40 <==> 20.0 <= displayedFocusScore < 40.0
    ensures s == State60 <==> 40.0 <= displayedFocusScore < 60.0
    ensures s == State80 <==> 60.0 <= displayedFocusScore < 80.0
    ensures s == State100 <==> 80.0 <= displayedFocusScore
  {
    if displayedFocusScore < 20.0 then State20
    else if displayedFocusScore < 40.0 then State40
    else if displayedFocusScore < 60.0 then State60
    else if displayedFocusScore < 80.0 then State80
    else State100
  }

  /** A higher score never yields a lower state. */
  lemma FocusStateMonotone(a: real, b: real)
    requires a <= b
    ensures Rank(FocusStateOf(a)) <= Rank(FocusStateOf(b))
  {
  }

  /** Apart from the two open-ended bands, a state of rank r covers exactly the scores in [20 r, 20 r + 20). */
  lemma FocusStateBand(score: real)
    ensures FocusStateOf(score) != State20 ==> 20.0 * Rank(FocusStateOf(score)) as real <= score
    ensures FocusStateOf(score) != State100 ==> score < 20.0 * Rank(FocusStateOf(score)) as real + 20.0
  {
  }

  /** The alert sounds when the state is `State20` and the previous one is not, including no previous state. */
  predicate AlertFires(current: FocusState, previous: Option<FocusState>) {
    current == State20 && previous != Some(State20)
  }

  /**
   * The alerts of a series of score changes, starting from the previous
   * state `previous`: each change is classified, decides its alert against
   * the state before it and becomes the next change's previous state.
   */
  function AlertTrace(previous: Option<FocusState>, scores: seq<real>): (alerts: seq<bool>)
    ensures |alerts| == |scores|
    decreases |scores|
  {
    if scores == [] then []
    else
      var current := FocusStateOf(scores[0]);
      [AlertFires(current, previous)] + AlertTrace(Some(current), scores[1..])
  }

  /**
   * Change k alerts exactly when it falls below 20 while the change before
   * it (or, for the first, the starting state `previous`) did not.
   */
  lemma {:induction false} AlertTraceAt(previous: Option<FocusState>, scores: seq<real>, k: nat)
    requires k < |scores|
    ensures k == 0 ==> (AlertTrace(previous, scores)[k] <==> scores[k] < 20.0 && previous != Some(State20))
    ensures k > 0 ==> (AlertTrace(previous, scores)[k] <==> scores[k] < 20.0 && 20.0 <= scores[k - 1])
    decreases k
  {
    var current := FocusStateOf(scores[0]);
    if k == 0 {
      assert AlertTrace(previous, scores)[0] == AlertFires(current, previous);
    } else {
      var rest := scores[1..];
      AlertTraceAt(Some(current), rest, k - 1);
      assert AlertTrace(previous, scores)[k] == AlertTrace(Some(current), rest)[k - 1];
      assert rest[k - 1] == scores[k];
      if k > 1 {
        assert rest[k - 2] == scores[k - 1];
      }
    }
  }

  /** A run of scores that all stay below 20 alerts at most once, on its first change. */
  lemma AlertOncePerRun(previous: Option<FocusState>, scores: seq<real>)
    requires forall k :: 0 <= k < |scores| ==> scores[k] < 20.0
    ensures forall k :: 0 < k < |scores| ==> !AlertTrace(previous, scores)[k]
    ensures |scores| > 0 ==> (AlertTrace(previous, scores)[0] <==> previous != Some(State20))
  {
    forall k | 0 <= k < |scores| {
      AlertTraceAt(previous, scores, k);
    }
  }

  /** `map { $0.score }`: the scores of the log, in order. */
  function ScoreValues(entries: seq<FocusData>): (r: seq<real>)
    ensures |r| == |entries|
    ensures forall i :: 0 <= i < |entries| ==> r[i] == entries[i].score
  {
    seq(|entries|, i requires 0 <= i < |entries| => entries[i].score)
  }

  /** The screen's own state, bound to the measurement pipeline it shows. */
  class MeasurementScreen {
    const manager: SensorMeasurementManager
    var isMeasuring: bool
    var totalFocusMinutes: int
    var previousFocusState: Option<FocusState>

    constructor (manager: SensorMeasurementManager)
      ensures this.manager == manager
      ensures isMeasuring && totalFocusMinutes == 0 && previousFocusState == None
    {
      this.manager := manager;
      isMeasuring := true;
      totalFocusMinutes := 0;
      previousFocusState := None;
    }

    /**
     * The condition under which the view shows the focus-minutes line: the
     * measurement has ended and the count is positive. `Finish` and
     * `NoMinutesShown` state what it means for a saved session.
     */
    predicate ShowsFocusMinutes(): (shown: bool)
      reads this
      ensures shown ==> !isMeasuring && totalFocusMinutes >= 1
      ensures !isMeasuring && totalFocusMinutes >= 1 ==> shown
    {
      !isMeasuring && totalFocusMinutes > 0
    }

    /** `onAppear`: starts the measurement at `now`. */
    method OnAppear(now: real, motionAvailable: bool)
      modifies manager
      ensures manager.Valid() && manager.samples == [] && manager.scores == []
      ensures manager.totalGraphDataPoints == [] && manager.elapsedTime == [] && manager.nowTime == 0.0
      ensures manager.startedTime == Some(now)
      ensures manager.isStartingMeasure == motionAvailable
      ensures manager.receivingUpdates == (motionAvailable || old(manager.receivingUpdates))
      ensures manager.graphDataPoints == old(manager.graphDataPoints)
      ensures manager.rollOffset == old(manager.rollOffset) && manager.pitchOffset == old(manager.pitchOffset)
              && manager.yawOffset == old(manager.yawOffset)
    {
      manager.StartCalc(now, motionAvailable);
    }

    /**
     * `onChange(of: displayScore)`: returns whether the alert plays; the new
     * state becomes the previous one.
     */
    method OnDisplayScoreChange(newScore: real) returns (alert: bool)
      modifies this`previousFocusState
      ensures alert <==> newScore < 20.0 && old(previousFocusState) != Some(State20)
      ensures alert == AlertTrace(old(previousFocusState), [newScore])[0]
      ensures previousFocusState == Some(FocusStateOf(newScore))
    {
      var currentFocusState := FocusStateOf(newScore);
      alert := false;
      if currentFocusState == State20 && previousFocusState != Some(State20) {
        alert := true;
      }
      previousFocusState := Some(currentFocusState);
    }

    /**
     * `saveToDB` at time `now`: the session from the start time (or `now`
     * when none is recorded) to `now`, holding the log's scores in order;
     * its focus time becomes the minutes on screen. The session returned is
     * the one handed to the repository.
     */
    method SaveToDB(now: real, identifier: nat) returns (data: FocusSessionData)
      modifies this`totalFocusMinutes
      ensures data.identifier == identifier
      ensures Scores(data) == ScoreValues(manager.scores)
      ensures data.startDate == (if manager.startedTime.Some? then manager.startedTime.value else now)
      ensures data.endDate == now
      ensures totalFocusMinutes == TotalFocusTime(data)
    {
      var scores := ScoreValues(manager.scores);
      var startedTime := if manager.startedTime.Some? then manager.startedTime.value else now;
      data := NewSession(identifier, startedTime, now, scores);
      totalFocusMinutes := TotalFocusTime(data);
    }

    /**
     * The finish button: stops the measurement, saves the session and ends
     * measuring, so the focus minutes show exactly when the saved session
     * holds at least one focused minute.
     */
    method Finish(now: real, identifier: nat) returns (data: FocusSessionData)
      requires manager.Valid()
      modifies this`isMeasuring, this`totalFocusMinutes, manager
      ensures manager.Valid() && !manager.receivingUpdates && !manager.isStartingMeasure
      ensures manager.graphDataPoints == manager.totalGraphDataPoints
      ensures manager.samples == old(manager.samples) && manager.scores == old(manager.scores)
      ensures manager.totalGraphDataPoints == old(manager.totalGraphDataPoints)
      ensures manager.elapsedTime == old(manager.elapsedTime) && manager.nowTime == old(manager.nowTime)
      ensures manager.startedTime == old(manager.startedTime)
      ensures manager.rollOffset == old(manager.rollOffset) && manager.pitchOffset == old(manager.pitchOffset)
              && manager.yawOffset == old(manager.yawOffset)
      ensures Scores(data) == ScoreValues(manager.scores)
      ensures data.startDate == (if manager.startedTime.Some? then manager.startedTime.value else now)
      ensures data.endDate == now
      ensures !isMeasuring && totalFocusMinutes == TotalFocusTime(data)
      ensures ShowsFocusMinutes() <==> TotalFocusTime(data) > 0
    {
      manager.StopCalc();
      data := SaveToDB(now, identifier);
      isMeasuring := false;
    }
  }

  /**
   * A screen whose minutes come from a session shorter than a minute, or
   * from one without a focused entry, never shows the focus-minutes line.
   */
  lemma NoMinutesShown(screen: MeasurementScreen, data: FocusSessionData)
    requires screen.totalFocusMinutes == TotalFocusTime(data)
    requires data.endDate - data.startDate < 60.0
             || forall i :: 0 <= i < |Scores(data)| ==> !IsFocused(Scores(data)[i])
    ensures !screen.ShowsFocusMinutes()
  {
    if data.endDate - data.startDate >= 60.0 {
      TotalFocusTimeNoneFocused(data);
    }
  }
}
