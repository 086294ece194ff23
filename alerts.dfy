/**
 The unsafe-condition monitor: five fixed threshold rules, the row filter that keeps every
 reading breaking at least one of them, and the warning / all-clear decision taken on it.
 */
module Alerts {
  import opened Readings

  // The safety envelope, fixed in the source as literals.
  const MaxTemperature: real := 37.0
  const MaxAqi: real := 150.0
  const MaxSound: real := 85.0
  const MaxHeartRate: real := 120.0
  const MinSpO2: real := 94.0

  /** The five rules; every comparison is strict. */
  predicate TooHot(r: Reading) { r.temperature > MaxTemperature }
  predicate PoorAir(r: Reading) { r.aqi > MaxAqi }
  predicate TooLoud(r: Reading) { r.sound > MaxSound }
  predicate HeartRateHigh(r: Reading) { r.heartRate > MaxHeartRate }
  predicate OxygenLow(r: Reading) { r.spo2 < MinSpO2 }

  /** The boolean mask: a reading is an alert when any one rule holds. */
  predicate IsAlert(r: Reading)
  {
    TooHot(r) || PoorAir(r) || TooLoud(r) || HeartRateHigh(r) || OxygenLow(r)
  }

  /** `df[mask]`: the alert readings, in dataset order, each row kept as often as it occurs. */
  function DetectAlerts(s: Dataset): (a: Dataset)
    ensures forall r :: r in a <==> r in s && IsAlert(r)
    ensures forall i :: 0 <= i < |a| ==> IsAlert(a[i])
    ensures |a| <= |s|
  {
    if s == [] then []
    else if IsAlert(s[0]) then [s[0]] + DetectAlerts(s[1..])
    else DetectAlerts(s[1..])
  }

  /**
   The index labels `df[mask]` keeps. With the default index of a freshly read CSV a row's
   label is its position in the file; the k-th label is that of the k-th alert row, the labels
   increase, and a row's label is kept exactly when the row is an alert.
   */
  function AlertLabels(s: Dataset): seq<nat>
  {
    if s == [] then []
    else AlertLabels(s[..|s| - 1]) + (if IsAlert(s[|s| - 1]) then [|s| - 1] else [])
  }

  /** Filtering a dataset is filtering all rows but the last, then the last. */
  lemma DetectAlertsSnoc(s: Dataset)
    requires s != []
    ensures DetectAlerts(s) == DetectAlerts(s[..|s| - 1]) + if IsAlert(s[|s| - 1]) then [s[|s| - 1]] else []
  {
    var init, last := s[..|s| - 1], s[|s| - 1];
    assert s == init + [last];
    DetectAlertsAppend(init, [last]);
    DetectAlertsSingle(last);
  }

  /** Labels are row positions, strictly increasing. */
  lemma {:induction false} AlertLabelsIncrease(s: Dataset)
    ensures forall k :: 0 <= k < |AlertLabels(s)| ==> AlertLabels(s)[k] < |s|
    ensures forall k, l :: 0 <= k < l < |AlertLabels(s)| ==> AlertLabels(s)[k] < AlertLabels(s)[l]
  {
    if s != [] {
      AlertLabelsIncrease(s[..|s| - 1]);
    }
  }

  /** A row's label is kept exactly when the row is an alert. */
  lemma {:induction false} AlertLabelsSelect(s: Dataset)
    ensures forall i :: 0 <= i < |s| ==> (i in AlertLabels(s) <==> IsAlert(s[i]))
  {
    if s != [] {
      var n := |s| - 1;
      AlertLabelsSelect(s[..n]);
      AlertLabelsIncrease(s[..n]);
      assert forall i :: 0 <= i < n ==> s[..n][i] == s[i];
    }
  }

  /** There is one label per row of the alert table, and the k-th label is the k-th table row's. */
  lemma {:induction false} AlertLabelsMatchTable(s: Dataset)
    ensures |AlertLabels(s)| == |DetectAlerts(s)|
    ensures forall k :: 0 <= k < |AlertLabels(s)| ==>
      AlertLabels(s)[k] < |s| && DetectAlerts(s)[k] == s[AlertLabels(s)[k]]
  {
    AlertLabelsIncrease(s);
    if s != [] {
      var n := |s| - 1;
      AlertLabelsMatchTable(s[..n]);
      AlertLabelsIncrease(s[..n]);
      DetectAlertsSnoc(s);
      assert forall i :: 0 <= i < n ==> s[..n][i] == s[i];
    }
  }

  /** `a` is `b` with some rows removed and the others left in their order. */
  predicate IsSubsequence(a: Dataset, b: Dataset)
  {
    if a == [] then true
    else if b == [] then false
    else (a[0] == b[0] && IsSubsequence(a[1..], b[1..])) || IsSubsequence(a, b[1..])
  }

  /** The alert table is an order-preserving subsequence of the dataset. */
  lemma {:induction false} DetectAlertsIsSubsequence(s: Dataset)
    ensures IsSubsequence(DetectAlerts(s), s)
  {
    if s != [] {
      DetectAlertsIsSubsequence(s[1..]);
      if !IsAlert(s[0]) {
        SubsequenceOfTail(DetectAlerts(s[1..]), s);
      }
    }
  }

  /** Dropping the head of `b` keeps every subsequence of its tail a subsequence of `b`. */
  lemma SubsequenceOfTail(a: Dataset, b: Dataset)
    requires b != [] && IsSubsequence(a, b[1..])
    ensures IsSubsequence(a, b)
  {
  }

  /** Filtering distributes over concatenation: no row moves across another. */
  lemma {:induction false} DetectAlertsAppend(s: Dataset, t: Dataset)
    ensures DetectAlerts(s + t) == DetectAlerts(s) + DetectAlerts(t)
  {
    if s == [] {
      assert s + t == t;
    } else {
      assert (s + t)[0] == s[0];
      assert (s + t)[1..] == s[1..] + t;
      DetectAlertsAppend(s[1..], t);
    }
  }

  /** A single row is kept exactly when it is an alert. */
  lemma DetectAlertsSingle(r: Reading)
    ensures DetectAlerts([r]) == if IsAlert(r) then [r] else []
  {
    assert [r][1..] == [];
  }

  /**
   The alert reading at position `i` of the dataset appears in the table right after the
   alerts that precede it, so the table lists the alert rows at their original relative positions.
   */
  lemma DetectAlertsPosition(s: Dataset, i: nat)
    requires i < |s| && IsAlert(s[i])
    ensures |DetectAlerts(s[..i])| < |DetectAlerts(s)|
    ensures DetectAlerts(s)[|DetectAlerts(s[..i])|] == s[i]
  {
    assert s == s[..i] + [s[i]] + s[i + 1..];
    DetectAlertsAppend(s[..i] + [s[i]], s[i + 1..]);
    DetectAlertsAppend(s[..i], [s[i]]);
    DetectAlertsSingle(s[i]);
  }

  /** Each alert row occurs in the table as many times as in the dataset; every other row, never. */
  lemma {:induction false} DetectAlertsMultiplicity(s: Dataset, r: Reading)
    ensures multiset(DetectAlerts(s))[r] == if IsAlert(r) then multiset(s)[r] else 0
  {
    if s != [] {
      DetectAlertsMultiplicity(s[1..], r);
      assert s == [s[0]] + s[1..];
      assert multiset(s) == multiset{s[0]} + multiset(s[1..]);
      if IsAlert(s[0]) {
        assert multiset(DetectAlerts(s)) == multiset{s[0]} + multiset(DetectAlerts(s[1..]));
      }
    }
  }

  /** Filtering the alert table again returns it unchanged. */
  lemma DetectAlertsIdempotent(s: Dataset)
    ensures DetectAlerts(DetectAlerts(s)) == DetectAlerts(s)
  {
    DetectAlertsKeepsAll(DetectAlerts(s));
  }

  /** The filter returns the dataset itself exactly when every row is an alert. */
  lemma {:induction false} DetectAlertsKeepsAll(s: Dataset)
    ensures DetectAlerts(s) == s <==> forall i :: 0 <= i < |s| ==> IsAlert(s[i])
  {
    if s != [] {
      DetectAlertsKeepsAll(s[1..]);
      if !IsAlert(s[0]) {
        assert |DetectAlerts(s)| < |s|;
      } else {
        assert forall i :: 1 <= i < |s| ==> s[1..][i - 1] == s[i];
      }
    }
  }

  /** The two outcomes of the alert section (lines 47-51 of app2.py). */
  datatype Status = UnsafeConditions(alerts: Dataset) | AllClear

  /** Warning with the alert table when the filter kept any row, the all-clear message otherwise. */
  function Assess(ds: Dataset): (st: Status)
    ensures st.UnsafeConditions? <==> exists i :: 0 <= i < |ds| && IsAlert(ds[i])
    ensures st.UnsafeConditions? ==> st.alerts == DetectAlerts(ds) && st.alerts != []
  {
    var alerts := DetectAlerts(ds);
    if alerts != [] then
      assert alerts[0] in ds && IsAlert(alerts[0]);
      UnsafeConditions(alerts)
    else
      assert forall i :: 0 <= i < |ds| ==> ds[i] in ds;
      AllClear
  }

  /** The safe region is closed: a reading is no alert exactly when it sits inside every limit, boundaries included. */
  lemma SafeEnvelope(r: Reading)
    ensures !IsAlert(r) <==>
      && r.temperature <= 37.0
      && r.aqi <= 150.0
      && r.sound <= 85.0
      && r.heartRate <= 120.0
      && r.spo2 >= 94.0
  {
  }

  /** A reading exactly on all five limits is safe; moving any one value past its limit by `e` raises an alert. */
  lemma StrictBoundaries(r: Reading, e: real)
    requires e > 0.0
    requires r.temperature == 37.0 && r.aqi == 150.0 && r.sound == 85.0
    requires r.heartRate == 120.0 && r.spo2 == 94.0
    ensures !IsAlert(r)
    ensures IsAlert(r.(temperature := 37.0 + e))
    ensures IsAlert(r.(aqi := 150.0 + e))
    ensures IsAlert(r.(sound := 85.0 + e))
    ensures IsAlert(r.(heartRate := 120.0 + e))
    ensures IsAlert(r.(spo2 := 94.0 - e))
  {
  }

  /** A hot reading with otherwise normal values is reported on its own. */
  lemma TemperatureTriggerScenario(ts: Timestamp, humidity: real, lat: real, lon: real)
    ensures var r := Reading(ts, 38.0, humidity, 40.0, 50.0, 70.0, 98.0, lat, lon);
      DetectAlerts([r]) == [r] && Assess([r]) == UnsafeConditions([r])
  {
    DetectAlertsSingle(Reading(ts, 38.0, humidity, 40.0, 50.0, 70.0, 98.0, lat, lon));
  }

  /** A reading inside every limit leaves the table empty and the monitor all clear. */
  lemma AllClearScenario(ts: Timestamp, humidity: real, lat: real, lon: real)
    ensures var r := Reading(ts, 36.0, humidity, 40.0, 100.0, 70.0, 95.0, lat, lon);
      DetectAlerts([r]) == [] && Assess([r]) == AllClear
  {
    DetectAlertsSingle(Reading(ts, 36.0, humidity, 40.0, 100.0, 70.0, 95.0, lat, lon));
  }

  /** Of three safe readings with only the middle one short of oxygen, exactly the middle one is reported. */
  lemma LowOxygenScenario(a: Reading, b: Reading, c: Reading)
    requires !IsAlert(a) && !IsAlert(c)
    requires b.temperature <= 37.0 && b.aqi <= 150.0 && b.sound <= 85.0 && b.heartRate <= 120.0
    requires b.spo2 == 90.0
    ensures DetectAlerts([a, b, c]) == [b]
  {
    assert [a, b, c] == [a] + [b] + [c];
    DetectAlertsAppend([a] + [b], [c]);
    DetectAlertsAppend([a], [b]);
    DetectAlertsSingle(a);
    DetectAlertsSingle(b);
    DetectAlertsSingle(c);
  }

  /** In the same three-row dataset the one kept row keeps its file label, 1. */
  lemma LowOxygenScenarioLabels(a: Reading, b: Reading, c: Reading)
    requires !IsAlert(a) && !IsAlert(c)
    requires b.temperature <= 37.0 && b.aqi <= 150.0 && b.sound <= 85.0 && b.heartRate <= 120.0
    requires b.spo2 == 90.0
    ensures AlertLabels([a, b, c]) == [1]
  {
    var ls := AlertLabels([a, b, c]);
    LowOxygenScenario(a, b, c);
    AlertLabelsMatchTable([a, b, c]);
    AlertLabelsSelect([a, b, c]);
    assert |ls| == 1;
    assert [a, b, c][ls[0]] == b;
    assert 1 in ls;
  }
}
