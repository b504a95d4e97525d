/**
 * A finished focus session and the metrics derived from its stored score
 * sequence (`FocusSessionData` in Balance/SwiftData/Repository.swift).
 *
 * The session's scores are stored as a JSON string; the model keeps the
 * decoded sequence, or `Unreadable` for a string that does not decode.
 * Dates are seconds on one clock, so `endDate.timeIntervalSince(startDate)`
 * is `endDate - startDate`.
 */
module SessionMetrics {

  /** An entry is focused when `score * 100 < Threshold`. */
  const Threshold: real := 50.0

  predicate IsFocused(score: real) {
    score * 100.0 < Threshold
  }

  /** The thresholded value of one entry: 1.0 when focused, 0.0 otherwise. */
  function Indicator(score: real): real {
    if IsFocused(score) then 1.0 else 0.0
  }

  /** `scores.map { $0 * 100 < threshold }.map { $0 ? 1.0 : 0.0 }` */
  function Indicators(scores: seq<real>): (r: seq<real>)
    ensures |r| == |scores|
    ensures forall i :: 0 <= i < |scores| ==> r[i] == Indicator(scores[i])
  {
    seq(|scores|, i requires 0 <= i < |scores| => Indicator(scores[i]))
  }

  /** The number of focused entries: the reference for every metric below. */
  function FocusedCount(scores: seq<real>): nat {
    if scores == [] then 0
    else (if IsFocused(scores[0]) then 1 else 0) + FocusedCount(scores[1..])
  }

  function Sum(xs: seq<real>): real {
    if xs == [] then 0.0 else xs[0] + Sum(xs[1..])
  }

  function Repeat(x: real, n: nat): (r: seq<real>)
    ensures |r| == n && forall i :: 0 <= i < n ==> r[i] == x
  {
    seq(n, _ => x)
  }

  function Min(a: nat, b: nat): nat {
    if a <= b then a else b
  }

  lemma {:induction false} FocusedCountBounds(scores: seq<real>)
    ensures FocusedCount(scores) <= |scores|
    ensures FocusedCount(scores) == 0 <==> forall i :: 0 <= i < |scores| ==> !IsFocused(scores[i])
    ensures FocusedCount(scores) == |scores| <==> forall i :: 0 <= i < |scores| ==> IsFocused(scores[i])
  {
    if scores != [] {
      FocusedCountBounds(scores[1..]);
      assert forall i :: 1 <= i < |scores| ==> scores[i] == scores[1..][i - 1];
    }
  }

  lemma {:induction false} FocusedCountAppend(scores: seq<real>, x: real)
    ensures FocusedCount(scores + [x]) == FocusedCount(scores) + (if IsFocused(x) then 1 else 0)
  {
    if scores != [] {
      assert (scores + [x])[1..] == scores[1..] + [x];
      FocusedCountAppend(scores[1..], x);
    }
  }

  /** Summing the thresholded values counts the focused entries. */
  lemma {:induction false} SumIndicators(scores: seq<real>)
    ensures Sum(Indicators(scores)) == FocusedCount(scores) as real
  {
    if scores != [] {
      assert Indicators(scores)[1..] == Indicators(scores[1..]);
      SumIndicators(scores[1..]);
    }
  }

  /** Moving a window one place right adds its new last entry and drops its old first one. */
  lemma SlideWindow(scores: seq<real>, lo: nat, hi: nat)
    requires lo < hi < |scores|
    ensures FocusedCount(scores[lo + 1..hi + 1]) as real
         == FocusedCount(scores[lo..hi]) as real + Indicator(scores[hi]) - Indicator(scores[lo])
  {
    FocusedCountAppend(scores[lo..hi], scores[hi]);
    assert scores[lo..hi] + [scores[hi]] == scores[lo..hi + 1];
    assert scores[lo..hi + 1][1..] == scores[lo + 1..hi + 1];
  }

  /** One step of the running sum: the window [i - w, i) moved one place right, and its share. */
  lemma SlideShare(scores: seq<real>, thresholdScores: seq<real>, i: nat, w: nat, windowSum: real)
    requires thresholdScores == Indicators(scores)
    requires 0 < w <= i < |scores|
    requires windowSum == FocusedCount(scores[i - w..i]) as real
    ensures windowSum + thresholdScores[i] - thresholdScores[i - w] == FocusedCount(scores[i - w + 1..i + 1]) as real
    ensures (windowSum + thresholdScores[i] - thresholdScores[i - w]) / w as real == WindowShare(scores, i - w + 1, w)
  {
    SlideWindow(scores, i - w, i);
  }

  /**
   * The smoothing window: 100 entries for sessions of more than 100 entries,
   * 10 for more than 10, otherwise 1. It reaches the session length only
   * for sessions of at most one entry.
   */
  function WindowSize(count: nat): (w: nat)
    ensures 1 <= w <= 100
    ensures w >= count <==> count <= 1
  {
    if count > 100 then 100 else if count > 10 then 10 else 1
  }

  /**
   * Reference definition of the smoothed focus curve: entry k is the share
   * of focused entries among positions [k, k + w); empty when the window
   * does not fit strictly inside the session.
   */
  function FocusCurve(scores: seq<real>): seq<real> {
    var n := |scores|;
    var w := WindowSize(n);
    if w >= n then []
    else seq(n - w + 1, k requires 0 <= k < n - w + 1 => WindowShare(scores, k, w))
  }

  /** The share of focused entries among positions [k, k + w). */
  function WindowShare(scores: seq<real>, k: nat, w: nat): real
    requires 0 < w && k + w <= |scores|
  {
    FocusedCount(scores[k..k + w]) as real / w as real
  }

  /** `focusScoresForGraph`: the running-sum computation of the focus curve. */
  method FocusScoresForGraph(scores: seq<real>) returns (windowSums: seq<real>)
    ensures windowSums == FocusCurve(scores)
  {
    var thresholdScores := Indicators(scores);
    var windowSize := WindowSize(|scores|);
    windowSums := [];
    var seed := Min(windowSize, |thresholdScores|);
    var windowSum := Sum(thresholdScores[..seed]);
    windowSums := windowSums + [windowSum / windowSize as real];

    // the first window value above is thrown away on this path
    if !(windowSize < |scores|) {
      return [];
    }
    assert thresholdScores[..seed] == Indicators(scores[..windowSize]);
    SumIndicators(scores[..windowSize]);
    assert scores[0..windowSize] == scores[..windowSize];
    assert windowSums[0] == WindowShare(scores, 0, windowSize);
    for i := windowSize to |scores|
      invariant windowSum == FocusedCount(scores[i - windowSize..i]) as real
      invariant |windowSums| == i - windowSize + 1
      invariant forall k :: 0 <= k < |windowSums| ==> windowSums[k] == WindowShare(scores, k, windowSize)
    {
      SlideShare(scores, thresholdScores, i, windowSize, windowSum);
      windowSum := windowSum + thresholdScores[i] - thresholdScores[i - windowSize];
      windowSums := windowSums + [windowSum / windowSize as real];
    }
    assert |windowSums| == |FocusCurve(scores)|;
  }

  lemma FocusCurveLength(scores: seq<real>)
    ensures |FocusCurve(scores)| == if |scores| <= 1 then 0 else |scores| - WindowSize(|scores|) + 1
  {
  }

  /** Every point of the focus curve is a share, in [0, 1]. */
  lemma FocusCurveInUnitInterval(scores: seq<real>)
    ensures forall k :: 0 <= k < |FocusCurve(scores)| ==> 0.0 <= FocusCurve(scores)[k] <= 1.0
  {
    var n := |scores|;
    var w := WindowSize(n);
    if w < n {
      forall k | 0 <= k < n - w + 1
        ensures 0.0 <= FocusCurve(scores)[k] <= 1.0
      {
        FocusedCountBounds(scores[k..k + w]);
        ShareBounds(FocusedCount(scores[k..k + w]), w);
      }
    }
  }

  lemma ShareBounds(count: nat, w: nat)
    requires 0 < w && count <= w
    ensures 0.0 <= count as real / w as real <= 1.0
  {
  }

  /** A session with no focused entry has a curve that is 0 everywhere. */
  lemma FocusCurveUnfocused(scores: seq<real>)
    requires forall i :: 0 <= i < |scores| ==> !IsFocused(scores[i])
    ensures forall k :: 0 <= k < |FocusCurve(scores)| ==> FocusCurve(scores)[k] == 0.0
  {
    var n := |scores|;
    var w := WindowSize(n);
    if w < n {
      forall k | 0 <= k < n - w + 1
        ensures FocusCurve(scores)[k] == 0.0
      {
        var window := scores[k..k + w];
        assert forall i :: 0 <= i < |window| ==> window[i] == scores[k + i];
        FocusedCountBounds(window);
      }
    }
  }

  /**
   * For 2 to 10 entries the window is a single entry, so the curve is the
   * thresholded sequence itself and its mean is the focus ratio.
   */
  lemma FocusCurveShortSession(scores: seq<real>)
    requires 2 <= |scores| <= 10
    ensures FocusCurve(scores) == Indicators(scores)
    ensures FocusRatio(scores) * |scores| as real == Sum(FocusCurve(scores))
  {
    forall k | 0 <= k < |scores|
      ensures FocusCurve(scores)[k] == Indicators(scores)[k]
    {
      assert WindowSize(|scores|) == 1;
      assert FocusCurve(scores)[k] == WindowShare(scores, k, 1);
      assert scores[k..k + 1] == [scores[k]];
      assert [scores[k]][1..] == [];
      assert FocusedCount([scores[k]]) == if IsFocused(scores[k]) then 1 else 0;
    }
    SumIndicators(scores);
  }

  /** A session of one entry yields no curve at all. */
  lemma FocusCurveSingleEntry(score: real)
    ensures FocusCurve([score]) == []
  {
  }

  /**
   * A session of 11 to 100 identical unfocused entries (such as fifty
   * entries of 1000.0): window 10, a curve of n - 9 zeros and a ratio of 0.
   */
  lemma FocusCurveUniformUnfocused(score: real, n: nat)
    requires !IsFocused(score) && 10 < n <= 100
    ensures WindowSize(n) == 10
    ensures |FocusCurve(Repeat(score, n))| == n - 9
    ensures forall k :: 0 <= k < n - 9 ==> FocusCurve(Repeat(score, n))[k] == 0.0
    ensures FocusRatio(Repeat(score, n)) == 0.0
  {
    var scores := Repeat(score, n);
    FocusCurveUnfocused(scores);
    FocusedCountBounds(scores);
  }

  /**
   * `focusRatio`: the share of focused entries; 0 for an empty session,
   * whose 0/0 is NaN in the app and replaced by zero.
   */
  function FocusRatio(scores: seq<real>): (r: real)
    ensures 0.0 <= r <= 1.0
    ensures scores == [] ==> r == 0.0
    ensures scores != [] ==> r * |scores| as real == FocusedCount(scores) as real
  {
    if |scores| == 0 then 0.0
    else
      SumIndicators(scores);
      FocusedCountBounds(scores);
      ShareBounds(FocusedCount(scores), |scores|);
      ShareTimesWhole(FocusedCount(scores), |scores|);
      Sum(Indicators(scores)) / |scores| as real
  }

  lemma ShareTimesWhole(count: nat, w: nat)
    requires 0 < w
    ensures (count as real / w as real) * w as real == count as real
  {
  }

  /** The stored JSON text of the scores: either it decodes to a list of numbers or it does not. */
  datatype ScoresJson = Json(values: seq<real>) | Unreadable

  /** `identifier` stands for the session's UUID, supplied by the caller. */
  datatype FocusSessionData = FocusSessionData(
    identifier: nat,
    startDate: real,
    endDate: real,
    scoresJson: ScoresJson)

  /** The keyed form `encode(to:)` writes and `init(from:)` reads. */
  datatype CodedSession = CodedSession(identifier: nat, startDate: real, endDate: real, scores: seq<real>)

  /** The `scores` getter: the decoded list, or empty when decoding fails. */
  function Scores(session: FocusSessionData): (scores: seq<real>)
    ensures session.scoresJson.Json? ==> scores == session.scoresJson.values
    ensures session.scoresJson.Unreadable? ==> scores == []
  {
    match session.scoresJson
    case Json(values) => values
    case Unreadable => []
  }

  /** The `scores` setter: re-encodes the whole list. */
  function WithScores(session: FocusSessionData, scores: seq<real>): (r: FocusSessionData)
    ensures Scores(r) == scores
    ensures r.identifier == session.identifier
    ensures r.startDate == session.startDate && r.endDate == session.endDate
  {
    session.(scoresJson := Json(scores))
  }

  /** `init(startDate:endDate:scores:)`: the stored scores read back as given. */
  function NewSession(identifier: nat, startDate: real, endDate: real, scores: seq<real>): (r: FocusSessionData)
    ensures Scores(r) == scores
    ensures r.identifier == identifier
    ensures r.startDate == startDate && r.endDate == endDate
  {
    FocusSessionData(identifier, startDate, endDate, Json(scores))
  }

  /** `init()`: a session starting and ending `now` with the fixed scores [1.0, 2.0]. */
  function TestSession(identifier: nat, now: real): (r: FocusSessionData)
    ensures Scores(r) == [1.0, 2.0]
    ensures r.identifier == identifier
    ensures r.startDate == now && r.endDate == now
  {
    FocusSessionData(identifier, now, now, Json([1.0, 2.0]))
  }

  /** `encode(to:)`. */
  function EncodeSession(session: FocusSessionData): (c: CodedSession)
    ensures c.scores == Scores(session)
    ensures c.identifier == session.identifier
    ensures c.startDate == session.startDate && c.endDate == session.endDate
  {
    CodedSession(session.identifier, session.startDate, session.endDate, Scores(session))
  }

  /** `init(from:)`: reads the identifier and dates but not the encoded scores. */
  function DecodeSession(coded: CodedSession): (r: FocusSessionData)
    ensures Scores(r) == [1.0, 2.0]
    ensures r.identifier == coded.identifier
    ensures r.startDate == coded.startDate && r.endDate == coded.endDate
  {
    FocusSessionData(coded.identifier, coded.startDate, coded.endDate, Json([1.0, 2.0]))
  }

  /** Encoding then decoding keeps identifier and dates, and replaces the scores by [1.0, 2.0]. */
  lemma CodableRoundTrip(session: FocusSessionData)
    ensures DecodeSession(EncodeSession(session)) == session.(scoresJson := Json([1.0, 2.0]))
    ensures Scores(session) != [1.0, 2.0] ==> Scores(DecodeSession(EncodeSession(session))) != Scores(session)
  {
  }

  /** The evidently intended `init(from:)`: it reads the encoded scores along with the identifier and dates. */
  function DecodeSessionWithScores(coded: CodedSession): (r: FocusSessionData)
    ensures Scores(r) == coded.scores
    ensures r.identifier == coded.identifier
    ensures r.startDate == coded.startDate && r.endDate == coded.endDate
  {
    FocusSessionData(coded.identifier, coded.startDate, coded.endDate, Json(coded.scores))
  }

  /**
   * With the intended decoder, encoding then decoding reproduces the scores,
   * and the whole session when its stored scores are readable; decoding then
   * encoding reproduces the keyed form.
   */
  lemma CodableRoundTripWithScores(session: FocusSessionData, coded: CodedSession)
    ensures Scores(DecodeSessionWithScores(EncodeSession(session))) == Scores(session)
    ensures session.scoresJson.Json? ==> DecodeSessionWithScores(EncodeSession(session)) == session
    ensures EncodeSession(DecodeSessionWithScores(coded)) == coded
  {
  }

  /**
   * `totalFocusTime` in whole minutes: zero for a session shorter than a
   * minute, otherwise the session's minutes scaled by the focus ratio and
   * truncated, so never more than its whole minutes.
   */
  function TotalFocusTime(session: FocusSessionData): (minutes: int)
    ensures session.endDate - session.startDate < 60.0 ==> minutes == 0
    ensures minutes >= 0
    ensures session.endDate - session.startDate >= 60.0 ==>
              minutes <= ((session.endDate - session.startDate) / 60.0).Floor
  {
    var diff := session.endDate - session.startDate;
    if diff >= 60.0 then
      var diffMinutes := diff / 60.0;
      var ratio := FocusRatio(Scores(session));
      assert 0.0 <= diffMinutes * ratio <= diffMinutes by {
        assert diffMinutes * ratio <= diffMinutes * 1.0;
      }
      (diffMinutes * ratio).Floor
    else 0
  }

  /** A session of at least a minute whose every entry is focused earns all its whole minutes. */
  lemma TotalFocusTimeAllFocused(session: FocusSessionData)
    requires session.endDate - session.startDate >= 60.0
    requires Scores(session) != []
    requires forall i :: 0 <= i < |Scores(session)| ==> IsFocused(Scores(session)[i])
    ensures TotalFocusTime(session) == ((session.endDate - session.startDate) / 60.0).Floor
  {
    var scores := Scores(session);
    FocusedCountBounds(scores);
    var n := |scores| as real;
    assert FocusedCount(scores) == |scores|;
    assert (FocusRatio(scores) - 1.0) * n == 0.0;
    assert n != 0.0;
    assert FocusRatio(scores) == 1.0;
    var diffMinutes := (session.endDate - session.startDate) / 60.0;
    assert diffMinutes * FocusRatio(scores) == diffMinutes;
  }

  /** A session without a focused entry earns no minutes, however long it ran. */
  lemma TotalFocusTimeNoneFocused(session: FocusSessionData)
    requires forall i :: 0 <= i < |Scores(session)| ==> !IsFocused(Scores(session)[i])
    ensures TotalFocusTime(session) == 0
  {
    FocusedCountBounds(Scores(session));
  }
}
