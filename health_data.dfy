/**
 * The record the watch ships to the phone, the sensor families the tracker
 * subscribes to and the keys under which a data point exposes its values.
 */
module HealthData {
  import opened Wrappers

  /** The tracker types the ingest distinguishes; every other SDK tracker type is `OtherTracker`. */
  datatype TrackerType =
    | AccelerometerContinuous
    | HeartRateContinuous
    | PpgContinuous
    | SkinTemperatureContinuous
    | EdaContinuous
    | OtherTracker

  /** The value keys read from data points; they also key the per-field update timestamps. */
  datatype ValueKey =
    | PpgGreen | PpgIr | PpgRed
    | HeartRate | IbiList
    | AccelerometerX | AccelerometerY | AccelerometerZ
    | ObjectTemperature
    | SkinConductance

  /**
   * One composite reading. Every field is nullable; Kotlin `Float`/`Double`
   * values are exact reals here. `respirationRate` is the field the snapshot
   * loop fills from the derived-metric cache.
   */
  datatype HealthDataRecord = HealthDataRecord(
    timestamp: int,
    accX: Option<int>,
    accY: Option<int>,
    accZ: Option<int>,
    ppgGreen: Option<int>,
    ppgIr: Option<int>,
    ppgRed: Option<int>,
    hr: Option<int>,
    ibi: Option<seq<int>>,
    skinTemp: Option<real>,
    eda: Option<real>,
    ecg: Option<real>,
    spo2: Option<real>,
    bvp: Option<real>,
    respirationRate: Option<real>)

  /** `HealthDataRecord()`: timestamp 0 and every other field null. */
  const DefaultRecord: HealthDataRecord :=
    HealthDataRecord(0, None, None, None, None, None, None, None, None, None, None, None, None, None, None)
}
