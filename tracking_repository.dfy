/**
 * The watch's tracking repository as an object: the latest record, the
 * per-key update timestamps, the four window buffers, the simulation state,
 * the derived-metric caches and the set of subscribed trackers, with one
 * method per sequential step the repository performs.
 */
module WatchTracking {
  import opened Wrappers
  import opened HealthData
  import opened TrackingConfig
  import opened SlidingWindow
  import opened SensorIngest
  import opened SignalProcessing
  import opened Snapshot

  /** The bpm half of each (arrival time, bpm) pair, `hrBuffer.map { it.second }`. */
  function HrValues(hr: seq<(int, real)>): (r: seq<real>)
    ensures |r| == |hr|
    ensures forall i :: 0 <= i < |hr| ==> r[i] == hr[i].1
  {
    seq(|hr|, i requires 0 <= i < |hr| => hr[i].1)
  }

  /** The simulated EDA a session starts from: `0.8 + (u - 0.5) * 0.1` for a uniform `u` in [0, 1). */
  function InitialSimEda(u: real): (r: real)
    requires 0.0 <= u < 1.0
    ensures 0.75 <= r < 0.85
  {
    0.8 + (u - 0.5) * 0.1
  }

  class TrackingRepository {
    var latestRecord: HealthDataRecord
    var lastSensorUpdateTimestamps: map<ValueKey, int>
    var ppgGreenBuffer: seq<real>
    var ppgIrBuffer: seq<real>
    var ppgRedBuffer: seq<real>
    var hrBuffer: seq<(int, real)>
    var simEda: real
    var simulationTimeStep: real
    var cachedRespirationRate: Option<real>
    var cachedPpgResult: PpgResult
    var activeTrackers: set<TrackerType>

    /** The part of the state the sensor listener writes. */
    function Sensors(): SensorState
      reads this
    {
      SensorState(latestRecord, lastSensorUpdateTimestamps, ppgGreenBuffer, ppgIrBuffer, ppgRedBuffer, hrBuffer)
    }

    /** The windows are in lock step and within capacity, and the simulated EDA is above its floor. */
    predicate Valid()
      reads this
    {
      SensorIngest.Valid(Sensors()) && simEda >= SIM_EDA_FLOOR
    }

    constructor()
      ensures Valid()
      ensures Sensors() == Cleared
      ensures simEda == 0.8 && simulationTimeStep == 0.0
      ensures cachedRespirationRate == None && cachedPpgResult == PpgResult(None, None)
      ensures activeTrackers == {}
    {
      latestRecord := DefaultRecord;
      lastSensorUpdateTimestamps := map[];
      ppgGreenBuffer, ppgIrBuffer, ppgRedBuffer := [], [], [];
      hrBuffer := [];
      simEda := 0.8;
      simulationTimeStep := 0.0;
      cachedRespirationRate := None;
      cachedPpgResult := PpgResult(None, None);
      activeTrackers := {};
    }

    /**
     * `stopTracking`: unsubscribe every tracker, reset the latest record, forget
     * every stamp and empty the four buffers. Caches and simulation stay.
     */
    method StopTracking()
      requires Valid()
      modifies this
      ensures Valid()
      ensures Sensors() == Cleared && activeTrackers == {}
      ensures simEda == old(simEda) && simulationTimeStep == old(simulationTimeStep)
      ensures cachedRespirationRate == old(cachedRespirationRate) && cachedPpgResult == old(cachedPpgResult)
    {
      activeTrackers := {};
      latestRecord := DefaultRecord;
      lastSensorUpdateTimestamps := map[];
      ppgGreenBuffer, ppgRedBuffer, ppgIrBuffer := [], [], [];
      hrBuffer := [];
    }

    /**
     * The start of `track`. Without a health tracking service the flow is
     * closed with an error and nothing changes. Otherwise the session is
     * reset: cleared sensor state, absent caches, simulation time 0 and a
     * jittered simulated EDA; then every requested type not yet active is
     * subscribed, and `subscribes` says which subscriptions the platform accepts.
     */
    method Track(serviceAvailable: bool, trackerTypes: set<TrackerType>, subscribes: set<TrackerType>, u: real)
      returns (started: bool)
      requires Valid()
      requires 0.0 <= u < 1.0
      modifies this
      ensures Valid()
      ensures started == serviceAvailable
      ensures !started ==> unchanged(this)
      ensures started ==> Sensors() == Cleared
      ensures started ==> cachedRespirationRate == None && cachedPpgResult == PpgResult(None, None)
      ensures started ==> simulationTimeStep == 0.0 && simEda == InitialSimEda(u)
      ensures started ==> activeTrackers == old(activeTrackers) + trackerTypes * subscribes
    {
      if !serviceAvailable {
        return false;
      }
      latestRecord := DefaultRecord;
      lastSensorUpdateTimestamps := map[];
      ppgGreenBuffer, ppgRedBuffer, ppgIrBuffer := [], [], [];
      hrBuffer := [];
      cachedRespirationRate := None;
      cachedPpgResult := PpgResult(None, None);
      simulationTimeStep := 0.0;
      simEda := InitialSimEda(u);
      activeTrackers := activeTrackers + trackerTypes * subscribes;
      started := true;
    }

    /**
     * `awaitClose`: the loops stop, every tracker is unsubscribed and the stamps
     * are forgotten; the buffers and the latest record are kept.
     */
    method CloseSession()
      requires Valid()
      modifies this
      ensures Valid()
      ensures activeTrackers == {} && lastSensorUpdateTimestamps == map[]
      ensures latestRecord == old(latestRecord)
      ensures ppgGreenBuffer == old(ppgGreenBuffer) && ppgIrBuffer == old(ppgIrBuffer)
      ensures ppgRedBuffer == old(ppgRedBuffer) && hrBuffer == old(hrBuffer)
      ensures simEda == old(simEda) && simulationTimeStep == old(simulationTimeStep)
      ensures cachedRespirationRate == old(cachedRespirationRate) && cachedPpgResult == old(cachedPpgResult)
    {
      activeTrackers := {};
      lastSensorUpdateTimestamps := map[];
    }

    /** The PPG branch: push into the three windows, each pruned to 125, record and stamp. */
    method IngestPpgSample(green: int, ir: int, red: int, now: int)
      requires Valid()
      modifies this
      ensures Sensors() == IngestPpg(old(Sensors()), green, ir, red, now)
      ensures simEda == old(simEda) && simulationTimeStep == old(simulationTimeStep)
      ensures cachedRespirationRate == old(cachedRespirationRate) && cachedPpgResult == old(cachedPpgResult)
      ensures activeTrackers == old(activeTrackers)
    {
      var greens := PruneFront(ppgGreenBuffer + [green as real], PPG_WINDOW_SAMPLES);
      var irs := PruneFront(ppgIrBuffer + [ir as real], PPG_WINDOW_SAMPLES);
      var reds := PruneFront(ppgRedBuffer + [red as real], PPG_WINDOW_SAMPLES);
      ppgGreenBuffer, ppgIrBuffer, ppgRedBuffer := greens, irs, reds;
      latestRecord := latestRecord.(ppgGreen := Some(green), ppgIr := Some(ir), ppgRed := Some(red));
      lastSensorUpdateTimestamps := lastSensorUpdateTimestamps[PpgGreen := now][PpgIr := now][PpgRed := now];
    }

    /** The heart-rate branch: push (now, bpm) pruned to 120, record, stamp, and stamp IBI only when present. */
    method IngestHeartRateSample(hr: int, ibiList: Option<seq<int>>, now: int)
      requires Valid()
      modifies this
      ensures Sensors() == IngestHr(old(Sensors()), hr, ibiList, now)
      ensures simEda == old(simEda) && simulationTimeStep == old(simulationTimeStep)
      ensures cachedRespirationRate == old(cachedRespirationRate) && cachedPpgResult == old(cachedPpgResult)
      ensures activeTrackers == old(activeTrackers)
    {
      hrBuffer := PruneFront(hrBuffer + [(now, hr as real)], HR_WINDOW_SECONDS);
      latestRecord := latestRecord.(hr := Some(hr), ibi := ibiList);
      lastSensorUpdateTimestamps := lastSensorUpdateTimestamps[HeartRate := now];
      if ibiList.Some? {
        lastSensorUpdateTimestamps := lastSensorUpdateTimestamps[IbiList := now];
      }
    }

    /** One data point of the listener for `tracker`; a point whose values cannot be read is skipped. */
    method IngestDataPoint(tracker: TrackerType, dp: DataPoint, now: int)
      requires Valid()
      modifies this
      ensures Valid()
      ensures Sensors() == Ingest(old(Sensors()), tracker, dp, now)
      ensures simEda == old(simEda) && simulationTimeStep == old(simulationTimeStep)
      ensures cachedRespirationRate == old(cachedRespirationRate) && cachedPpgResult == old(cachedPpgResult)
      ensures activeTrackers == old(activeTrackers)
    {
      if !Readable(tracker, dp) {
        return;
      }
      match tracker
      case PpgContinuous =>
        IngestPpgSample(dp[PpgGreen].i, dp[PpgIr].i, dp[PpgRed].i, now);
      case HeartRateContinuous =>
        IngestHeartRateSample(dp[HeartRate].i, dp[IbiList].list, now);
      case AccelerometerContinuous =>
        latestRecord := latestRecord.(accX := Some(dp[AccelerometerX].i),
                                      accY := Some(dp[AccelerometerY].i),
                                      accZ := Some(dp[AccelerometerZ].i));
        lastSensorUpdateTimestamps := lastSensorUpdateTimestamps[AccelerometerX := now][AccelerometerY := now][AccelerometerZ := now];
      case SkinTemperatureContinuous =>
        latestRecord := latestRecord.(skinTemp := Some(dp[ObjectTemperature].f));
        lastSensorUpdateTimestamps := lastSensorUpdateTimestamps[ObjectTemperature := now];
      case EdaContinuous =>
        latestRecord := latestRecord.(eda := Some(dp[SkinConductance].f));
        lastSensorUpdateTimestamps := lastSensorUpdateTimestamps[SkinConductance := now];
      case OtherTracker =>
    }

    /** `onDataReceived`: every data point of the batch in order, all stamped with the same `now`. */
    method OnDataReceived(tracker: TrackerType, dataPoints: seq<DataPoint>, now: int)
      requires Valid()
      modifies this
      ensures Valid()
      ensures Sensors() == IngestAll(old(Sensors()), tracker, dataPoints, now)
      ensures simEda == old(simEda) && simulationTimeStep == old(simulationTimeStep)
      ensures cachedRespirationRate == old(cachedRespirationRate) && cachedPpgResult == old(cachedPpgResult)
      ensures activeTrackers == old(activeTrackers)
    {
      var i := 0;
      while i < |dataPoints|
        invariant 0 <= i <= |dataPoints|
        invariant Valid()
        invariant Sensors() == IngestAll(old(Sensors()), tracker, dataPoints[..i], now)
        invariant simEda == old(simEda) && simulationTimeStep == old(simulationTimeStep)
        invariant cachedRespirationRate == old(cachedRespirationRate) && cachedPpgResult == old(cachedPpgResult)
        invariant activeTrackers == old(activeTrackers)
      {
        IngestDataPoint(tracker, dataPoints[i], now);
        assert dataPoints[..i + 1][..i] == dataPoints[..i];
        i := i + 1;
      }
      assert dataPoints[..i] == dataPoints;
    }

    /** `updateSimulatedValues`: advance the simulation clock by 0.1 and drift the simulated EDA. */
    method UpdateSimulatedValues(u: real)
      requires Valid()
      requires 0.0 <= u < 1.0
      modifies this
      ensures Valid()
      ensures simulationTimeStep == old(simulationTimeStep) + 0.1
      ensures simEda == NextSimEda(old(simEda), EdaContinuous in activeTrackers, u)
      ensures Sensors() == old(Sensors()) && activeTrackers == old(activeTrackers)
      ensures cachedRespirationRate == old(cachedRespirationRate) && cachedPpgResult == old(cachedPpgResult)
    {
      simulationTimeStep := simulationTimeStep + 0.1;
      if EdaContinuous !in activeTrackers {
        simEda := NextSimEda(simEda, false, u);
      }
    }

    /**
     * One pass of the snapshot loop at time `now`. Off the wrist nothing is
     * sent and nothing advances; otherwise the simulation advances and the
     * assembled record is sent.
     */
    method SnapshotTick(now: int, u: real, ecg: (real, Option<int>) -> real) returns (sent: Option<HealthDataRecord>)
      requires Valid()
      requires 0.0 <= u < 1.0
      modifies this
      ensures Valid()
      ensures OffWrist(old(latestRecord)) ==> sent == None && unchanged(this)
      ensures !OffWrist(old(latestRecord)) ==>
        && simulationTimeStep == old(simulationTimeStep) + 0.1
        && simEda == NextSimEda(old(simEda), EdaContinuous in activeTrackers, u)
        && sent == Some(AssembleSnapshot(latestRecord, lastSensorUpdateTimestamps, now,
                                         cachedPpgResult, cachedRespirationRate, simEda, ecg, simulationTimeStep))
      ensures Sensors() == old(Sensors()) && activeTrackers == old(activeTrackers)
      ensures cachedRespirationRate == old(cachedRespirationRate) && cachedPpgResult == old(cachedPpgResult)
    {
      var realTimeData := latestRecord;
      var ppgResult := cachedPpgResult;
      var respirationRate := cachedRespirationRate;
      if realTimeData.hr.Some? && realTimeData.hr.value == 0 {
        return None;
      }
      UpdateSimulatedValues(u);
      sent := Some(AssembleSnapshot(realTimeData, lastSensorUpdateTimestamps, now,
                                    ppgResult, respirationRate, simEda, ecg, simulationTimeStep));
    }

    /**
     * One pass of the processing loop: respiration rate from the heart-rate
     * window, then BVP and SpO2 from the PPG windows, into the caches.
     */
    method ProcessingTick(sqrt: real -> real, spectrum: seq<real> -> seq<real>)
      requires Valid()
      requires IsSpectrum(spectrum)
      modifies this
      ensures Valid()
      ensures cachedRespirationRate.None? <==> |hrBuffer| < MIN_HR_SAMPLES_FOR_RESP
      ensures cachedRespirationRate.Some? ==>
        && 6.0 <= cachedRespirationRate.value < 30.0
        && exists k :: IsPeak(spectrum(PaddedSignal(HrValues(hrBuffer))), PaddedLength(|hrBuffer|), k)
                    && cachedRespirationRate.value == BinFrequency(k, PaddedLength(|hrBuffer|)) * 60.0
      ensures cachedPpgResult == ProcessPpgWindow(ppgGreenBuffer, ppgRedBuffer, ppgIrBuffer, sqrt)
      ensures Sensors() == old(Sensors()) && activeTrackers == old(activeTrackers)
      ensures simEda == old(simEda) && simulationTimeStep == old(simulationTimeStep)
    {
      cachedRespirationRate := ProcessHrWindow(HrValues(hrBuffer), spectrum);
      cachedPpgResult := ProcessPpgWindow(ppgGreenBuffer, ppgRedBuffer, ppgIrBuffer, sqrt);
    }
  }
}
