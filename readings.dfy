/**
 The sensor capture the dashboard loads: one row of the wearable's CSV per `Reading`,
 and the column projection that every aggregate of the dashboard is built from.
 */
module Readings {

  /** Conventional optional value; `None` stands for an undefined (NaN) figure. */
  datatype Option<T> = None | Some(value: T)

  /** The `Timestamp` column is carried through unchanged and never interpreted. */
  type Timestamp = string

  /** One row of the dataset, with the CSV's numeric columns as exact reals. */
  datatype Reading = Reading(
    timestamp: Timestamp,
    temperature: real,   // Temperature (°C)
    humidity: real,      // Humidity (%)
    sound: real,         // Sound (dB)
    aqi: real,           // AQI
    heartRate: real,     // Heart Rate (bpm)
    spo2: real,          // SpO2 (%)
    lat: real,           // Latitude
    lon: real            // Longitude
  )

  /** The dataset is the file's rows in file order. */
  type Dataset = seq<Reading>

  /** The numeric columns of the file. */
  datatype Metric = Temperature | Humidity | Sound | Aqi | HeartRate | SpO2 | Latitude | Longitude

  /** The value of one numeric column in one row. */
  function Value(r: Reading, m: Metric): real
  {
    match m
    case Temperature => r.temperature
    case Humidity => r.humidity
    case Sound => r.sound
    case Aqi => r.aqi
    case HeartRate => r.heartRate
    case SpO2 => r.spo2
    case Latitude => r.lat
    case Longitude => r.lon
  }

  /** `df[column]`: the column of metric `m`, one entry per row, in row order. */
  function Column(ds: Dataset, m: Metric): seq<real>
  {
    seq(|ds|, i requires 0 <= i < |ds| => Value(ds[i], m))
  }
}
