/**
 The dashboard's aggregates: the four KPI tiles, the map's initial view centre and the six
 figures of the summary prompt, each one a column mean of the whole dataset. On an empty
 dataset pandas yields NaN for every mean; here that is `None`.
 */
module Monitor {
  import opened Readings
  import opened Statistics
  import opened Alerts

  /** `df[column].mean()`: the column mean, undefined (`None`) when there are no rows. */
  function ColumnMean(ds: Dataset, m: Metric): (r: Option<real>)
    ensures r.Some? <==> |ds| > 0
    ensures r.Some? ==> r.value * (|ds| as real) == Sum(Column(ds, m))
  {
    if ds == [] then None
    else
      var c := Column(ds, m);
      MeanTimesCount(c);
      Some(Mean(c))
  }

  /** The four KPI tiles: average temperature, humidity, AQI and heart rate. */
  datatype Kpis = Kpis(avgTemperature: real, avgHumidity: real, avgAqi: real, avgHeartRate: real)

  /** The KPI row, defined exactly when the dataset has a row. */
  function ComputeKpis(ds: Dataset): (k: Option<Kpis>)
    ensures k.Some? <==> |ds| > 0
    ensures k.Some? ==> var n := |ds| as real;
      && k.value.avgTemperature * n == Sum(Column(ds, Temperature))
      && k.value.avgHumidity * n == Sum(Column(ds, Humidity))
      && k.value.avgAqi * n == Sum(Column(ds, Aqi))
      && k.value.avgHeartRate * n == Sum(Column(ds, HeartRate))
  {
    if ds == [] then None
    else Some(Kpis(
      ColumnMean(ds, Temperature).value,
      ColumnMean(ds, Humidity).value,
      ColumnMean(ds, Aqi).value,
      ColumnMean(ds, HeartRate).value))
  }

  /** The map's initial view position. */
  datatype Centre = Centre(latitude: real, longitude: real)

  /** The view is centred on the mean latitude and the mean longitude of all readings. */
  function MapCentre(ds: Dataset): (c: Option<Centre>)
    ensures c.Some? <==> |ds| > 0
    ensures c.Some? ==> var n := |ds| as real;
      && c.value.latitude * n == Sum(Column(ds, Latitude))
      && c.value.longitude * n == Sum(Column(ds, Longitude))
  {
    if ds == [] then None
    else Some(Centre(ColumnMean(ds, Latitude).value, ColumnMean(ds, Longitude).value))
  }

  /** A column mean lies between the column's smallest and largest value. */
  lemma ColumnMeanWithinRange(ds: Dataset, m: Metric)
    requires |ds| > 0
    ensures Min(Column(ds, m)) <= ColumnMean(ds, m).value <= Max(Column(ds, m))
  {
    MeanBetweenExtremes(Column(ds, m));
  }

  /** When every reading lies inside a latitude/longitude box, so does the map centre. */
  lemma MapCentreInBoundingBox(ds: Dataset, south: real, north: real, west: real, east: real)
    requires |ds| > 0
    requires forall i :: 0 <= i < |ds| ==> south <= ds[i].lat <= north && west <= ds[i].lon <= east
    ensures var c := MapCentre(ds).value;
      south <= c.latitude <= north && west <= c.longitude <= east
  {
    MeanBounds(Column(ds, Latitude), south, north);
    MeanBounds(Column(ds, Longitude), west, east);
  }

  /** The six averages handed to the summary prompt. */
  datatype SummaryFigures = SummaryFigures(
    avgTemperature: real, avgHumidity: real, avgAqi: real,
    avgSound: real, avgHeartRate: real, avgSpO2: real)

  /** The prompt's figures, which repeat the four KPI tiles and add sound and SpO2. */
  function Summarize(ds: Dataset): (f: Option<SummaryFigures>)
    ensures f.Some? <==> |ds| > 0
    ensures f.Some? ==> var k := ComputeKpis(ds).value;
      && f.value.avgTemperature == k.avgTemperature
      && f.value.avgHumidity == k.avgHumidity
      && f.value.avgAqi == k.avgAqi
      && f.value.avgHeartRate == k.avgHeartRate
    ensures f.Some? ==> var n := |ds| as real;
      && f.value.avgSound * n == Sum(Column(ds, Sound))
      && f.value.avgSpO2 * n == Sum(Column(ds, SpO2))
  {
    if ds == [] then None
    else Some(SummaryFigures(
      ColumnMean(ds, Temperature).value,
      ColumnMean(ds, Humidity).value,
      ColumnMean(ds, Aqi).value,
      ColumnMean(ds, Sound).value,
      ColumnMean(ds, HeartRate).value,
      ColumnMean(ds, SpO2).value))
  }

  /** Projecting a column distributes over concatenation of datasets. */
  lemma ColumnAppend(a: Dataset, b: Dataset, m: Metric)
    ensures Column(a + b, m) == Column(a, m) + Column(b, m)
  {
  }

  /** The column of a non-empty dataset starts with the first row's value. */
  lemma ColumnCons(a: Dataset, m: Metric)
    requires a != []
    ensures Column(a, m) == [Value(a[0], m)] + Column(a[1..], m)
  {
  }

  /** Taking row `j` out of a dataset takes its value out of each column. */
  lemma ColumnRemove(b: Dataset, j: nat, m: Metric)
    requires j < |b|
    ensures multiset(Column(b, m)) == multiset{Value(b[j], m)} + multiset(Column(b[..j] + b[j + 1..], m))
  {
    assert b == b[..j] + [b[j]] + b[j + 1..];
    ColumnAppend(b[..j] + [b[j]], b[j + 1..], m);
    ColumnAppend(b[..j], [b[j]], m);
    ColumnAppend(b[..j], b[j + 1..], m);
  }

  /** Reordering the rows reorders each column the same way. */
  lemma {:induction false} ColumnPermutation(a: Dataset, b: Dataset, m: Metric)
    requires multiset(a) == multiset(b)
    ensures multiset(Column(a, m)) == multiset(Column(b, m))
    decreases |a|
  {
    if a == [] {
      assert |b| == |multiset(b)| == 0;
    } else {
      var j := MatchHead(a, b);
      ColumnPermutation(a[1..], b[..j] + b[j + 1..], m);
      ColumnRemove(b, j, m);
      ColumnCons(a, m);
    }
  }

  /** A column mean does not depend on the order of the rows. */
  lemma ColumnMeanOrderIndependent(a: Dataset, b: Dataset, m: Metric)
    requires multiset(a) == multiset(b)
    ensures ColumnMean(a, m) == ColumnMean(b, m)
  {
    assert |a| == |multiset(a)| == |multiset(b)| == |b|;
    if a != [] {
      ColumnPermutation(a, b, m);
      MeanPermutation(Column(a, m), Column(b, m));
    }
  }

  /** The KPI row, the map centre and the prompt figures are the same for any row order. */
  lemma AggregatesOrderIndependent(a: Dataset, b: Dataset)
    requires multiset(a) == multiset(b)
    ensures ComputeKpis(a) == ComputeKpis(b)
    ensures MapCentre(a) == MapCentre(b)
    ensures Summarize(a) == Summarize(b)
  {
    assert |a| == |multiset(a)| == |multiset(b)| == |b|;
    ColumnMeanOrderIndependent(a, b, Temperature);
    ColumnMeanOrderIndependent(a, b, Humidity);
    ColumnMeanOrderIndependent(a, b, Sound);
    ColumnMeanOrderIndependent(a, b, Aqi);
    ColumnMeanOrderIndependent(a, b, HeartRate);
    ColumnMeanOrderIndependent(a, b, SpO2);
    ColumnMeanOrderIndependent(a, b, Latitude);
    ColumnMeanOrderIndependent(a, b, Longitude);
  }

  /** Every average that lies outside the safety envelope forces the warning branch. */
  lemma AverageOutsideEnvelopeRaisesAlert(ds: Dataset)
    requires |ds| > 0
    ensures var f := Summarize(ds).value;
      (|| f.avgTemperature > MaxTemperature
       || f.avgAqi > MaxAqi
       || f.avgSound > MaxSound
       || f.avgHeartRate > MaxHeartRate
       || f.avgSpO2 < MinSpO2)
      ==> Assess(ds).UnsafeConditions?
  {
    if Assess(ds) == AllClear {
      assert forall i :: 0 <= i < |ds| ==> !IsAlert(ds[i]);
      MeanAtMost(Column(ds, Temperature), MaxTemperature);
      MeanAtMost(Column(ds, Aqi), MaxAqi);
      MeanAtMost(Column(ds, Sound), MaxSound);
      MeanAtMost(Column(ds, HeartRate), MaxHeartRate);
      MeanAtLeast(Column(ds, SpO2), MinSpO2);
    }
  }

  /** Two readings at 20 and 30 degrees average exactly 25 degrees. */
  lemma TemperatureMeanScenario(r1: Reading, r2: Reading)
    requires r1.temperature == 20.0 && r2.temperature == 30.0
    ensures ComputeKpis([r1, r2]).value.avgTemperature == 25.0
  {
    var c := Column([r1, r2], Temperature);
    assert c == [20.0, 30.0];
    assert c[1..] == [30.0] && c[1..][1..] == [];
    assert Sum([30.0]) == 30.0 + Sum([]);
    assert Sum(c) == 20.0 + Sum([30.0]);
    assert Mean(c) == 50.0 / 2.0;
  }
}
