/**
 * The once-a-second snapshot of the watch's tracking repository: per-field
 * staleness, the off-wrist rule, the simulated electrodermal activity and the
 * record that is sent.
 */
module Snapshot {
  import opened Wrappers
  import opened HealthData
  import opened TrackingConfig
  import opened SensorIngest
  import opened SignalProcessing

  /** The last update of `key`; a key never stamped counts as updated at time 0. */
  function LastUpdate(stamps: map<ValueKey, int>, key: ValueKey): (t: int)
    ensures key in stamps ==> t == stamps[key]
    ensures key !in stamps ==> t == 0
  {
    if key in stamps then stamps[key] else 0
  }

  /**
   * `getStaleData`: the live value while the key was updated less than a
   * minute ago, otherwise the default.
   */
  function GetStaleData<T(==)>(stamps: map<ValueKey, int>, key: ValueKey, now: int, lastValue: T, defaultValue: T): (r: T)
    ensures r == lastValue || r == defaultValue
    ensures lastValue != defaultValue ==> (r == lastValue <==> now - LastUpdate(stamps, key) < DATA_STALE_MS)
    ensures key in stamps && stamps[key] <= now < stamps[key] + DATA_STALE_MS ==> r == lastValue
    ensures key !in stamps && now >= DATA_STALE_MS ==> r == defaultValue
  {
    if now - LastUpdate(stamps, key) < DATA_STALE_MS then lastValue else defaultValue
  }

  /** Whether the field fed by `key` is passed through at time `now`. */
  predicate Fresh(stamps: map<ValueKey, int>, key: ValueKey, now: int)
  {
    now - LastUpdate(stamps, key) < DATA_STALE_MS
  }

  /** The value a stale field is replaced with: 0 for the ints, 0.0 for skin temperature, null for IBI. */
  function StaleDefault(key: ValueKey): FieldValue
  {
    match key
    case IbiList => ListField(None)
    case ObjectTemperature => RealField(Some(0.0))
    case SkinConductance => RealField(None)
    case _ => IntField(Some(0))
  }

  /** The keys whose fields go through `getStaleData`; EDA does not. */
  predicate StalenessChecked(key: ValueKey)
  {
    key != SkinConductance
  }

  /** The raw latest heart rate is exactly 0: the watch is off the wrist and the tick sends nothing. */
  predicate OffWrist(latest: HealthDataRecord)
  {
    latest.hr == Some(0)
  }

  /** The heart rate the snapshot carries: the live value, or 0 once stale. */
  function ResolvedHr(latest: HealthDataRecord, stamps: map<ValueKey, int>, now: int): Option<int>
  {
    GetStaleData(stamps, HeartRate, now, latest.hr, Some(0))
  }

  /**
   * The record of one snapshot tick, assembled from the latest record, the
   * stamps, the cached derived metrics, the simulated EDA and the ECG
   * generator applied to the simulation time and the emitted heart rate.
   */
  function AssembleSnapshot(
    latest: HealthDataRecord, stamps: map<ValueKey, int>, now: int,
    ppg: PpgResult, respirationRate: Option<real>, simEda: real,
    ecg: (real, Option<int>) -> real, timeStep: real): (r: HealthDataRecord)
    ensures r.timestamp == now
    ensures forall k :: StalenessChecked(k) && Fresh(stamps, k, now) ==> FieldOf(r, k) == FieldOf(latest, k)
    ensures forall k :: StalenessChecked(k) && !Fresh(stamps, k, now) ==> FieldOf(r, k) == StaleDefault(k)
    ensures r.eda == if latest.eda.Some? then latest.eda else Some(simEda)
    ensures r.ecg == if latest.ecg.Some? then latest.ecg else Some(ecg(timeStep, r.hr))
    ensures r.bvp == ppg.bvp && r.spo2 == ppg.spo2 && r.respirationRate == respirationRate
  {
    var hr := ResolvedHr(latest, stamps, now);
    HealthDataRecord(
      timestamp := now,
      hr := hr,
      ibi := GetStaleData(stamps, IbiList, now, latest.ibi, None),
      ppgGreen := GetStaleData(stamps, PpgGreen, now, latest.ppgGreen, Some(0)),
      ppgRed := GetStaleData(stamps, PpgRed, now, latest.ppgRed, Some(0)),
      ppgIr := GetStaleData(stamps, PpgIr, now, latest.ppgIr, Some(0)),
      accX := GetStaleData(stamps, AccelerometerX, now, latest.accX, Some(0)),
      accY := GetStaleData(stamps, AccelerometerY, now, latest.accY, Some(0)),
      accZ := GetStaleData(stamps, AccelerometerZ, now, latest.accZ, Some(0)),
      skinTemp := GetStaleData(stamps, ObjectTemperature, now, latest.skinTemp, Some(0.0)),
      eda := Some(latest.eda.GetOr(simEda)),
      ecg := Some(latest.ecg.GetOr(ecg(timeStep, hr))),
      bvp := ppg.bvp,
      spo2 := ppg.spo2,
      respirationRate := respirationRate)
  }

  /**
   * The off-wrist test reads the raw heart rate, not the resolved one: a
   * non-zero heart rate that went stale is still sent, as 0.
   */
  lemma StaleHeartRateSentAsZero(
    latest: HealthDataRecord, stamps: map<ValueKey, int>, now: int,
    ppg: PpgResult, respirationRate: Option<real>, simEda: real,
    ecg: (real, Option<int>) -> real, timeStep: real)
    requires latest.hr.Some? && latest.hr.value != 0
    requires !Fresh(stamps, HeartRate, now)
    ensures !OffWrist(latest)
    ensures AssembleSnapshot(latest, stamps, now, ppg, respirationRate, simEda, ecg, timeStep).hr == Some(0)
  {
    assert FieldOf(AssembleSnapshot(latest, stamps, now, ppg, respirationRate, simEda, ecg, timeStep), HeartRate)
        == StaleDefault(HeartRate);
  }

  /**
   * With no stamps at all (a session just started or closed) and at least a
   * minute past the epoch, every staleness-checked field carries its default.
   */
  lemma NeverObservedYieldsDefaults(
    latest: HealthDataRecord, now: int,
    ppg: PpgResult, respirationRate: Option<real>, simEda: real,
    ecg: (real, Option<int>) -> real, timeStep: real)
    requires now >= DATA_STALE_MS
    ensures var r := AssembleSnapshot(latest, map[], now, ppg, respirationRate, simEda, ecg, timeStep);
      forall k :: StalenessChecked(k) ==> FieldOf(r, k) == StaleDefault(k)
  {
    forall k | StalenessChecked(k)
      ensures !Fresh(map[], k, now)
    {
    }
  }

  /**
   * `updateSimulatedValues` on the simulated EDA: unchanged while an EDA tracker
   * is active, otherwise a drift of `(u - 0.5) * 0.01` for a uniform `u` in
   * [0, 1), floored at 0.1.
   */
  function NextSimEda(simEda: real, edaTracked: bool, u: real): (r: real)
    requires 0.0 <= u < 1.0
    ensures edaTracked ==> r == simEda
    ensures !edaTracked ==> r >= SIM_EDA_FLOOR
    ensures !edaTracked && simEda >= SIM_EDA_FLOOR ==> -0.005 <= r - simEda < 0.005
  {
    if edaTracked then simEda
    else
      var drifted := simEda + (u - 0.5) * 0.01;
      if drifted < SIM_EDA_FLOOR then SIM_EDA_FLOOR else drifted
  }
}
