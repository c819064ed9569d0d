/**
 * The phone's foreground service: each message taken from the inbox is
 * decoded, its first record is shown, and the record is saved unless it
 * reports no heart rate.
 */
module PhoneService {
  import opened Wrappers
  import opened HealthData
  import opened PhoneState
  import Snapshot
  import SensorIngest
  import SignalProcessing

  /** A record worth saving: its heart rate is present and not 0 (0 means off the wrist). */
  predicate Saveable(record: HealthDataRecord)
  {
    record.hr.Some? && record.hr.value != 0
  }

  /** What one message leads to. */
  datatype Outcome =
    | Dropped
    | Shown(record: HealthDataRecord)
    | ShownAndSaved(record: HealthDataRecord)

  /**
   * The decision of `processIncomingData` on a decoded message (`None` when
   * decoding threw): only the first record counts.
   */
  function Dispatch(decoded: Option<seq<HealthDataRecord>>): (o: Outcome)
    ensures o.Dropped? <==> decoded.None? || decoded.value == []
    ensures !o.Dropped? ==> o.record == decoded.value[0]
    ensures o.ShownAndSaved? <==> !o.Dropped? && Saveable(decoded.value[0])
  {
    match decoded
    case None => Dropped
    case Some(records) =>
      if records == [] then Dropped
      else if Saveable(records[0]) then ShownAndSaved(records[0])
      else Shown(records[0])
  }

  /** Two decoded lists with the same first record lead to the same outcome. */
  lemma OnlyFirstRecordConsidered(a: seq<HealthDataRecord>, b: seq<HealthDataRecord>)
    requires a != [] && b != [] && a[0] == b[0]
    ensures Dispatch(Some(a)) == Dispatch(Some(b))
  {
  }

  /**
   * A snapshot record the watch sends is saved by the phone exactly when its
   * raw heart rate is present, non-zero and updated within the last minute:
   * a stale heart rate arrives as 0 and is only shown.
   */
  lemma SentSnapshotSavedIffFreshHeartRate(
    latest: HealthDataRecord, stamps: map<ValueKey, int>, now: int,
    ppg: SignalProcessing.PpgResult, respirationRate: Option<real>, simEda: real,
    ecg: (real, Option<int>) -> real, timeStep: real)
    ensures var sent := Snapshot.AssembleSnapshot(latest, stamps, now, ppg, respirationRate, simEda, ecg, timeStep);
      Dispatch(Some([sent])).ShownAndSaved? <==>
        latest.hr.Some? && latest.hr.value != 0 && Snapshot.Fresh(stamps, HeartRate, now)
  {
    var sent := Snapshot.AssembleSnapshot(latest, stamps, now, ppg, respirationRate, simEda, ecg, timeStep);
    if Snapshot.Fresh(stamps, HeartRate, now) {
      assert SensorIngest.FieldOf(sent, HeartRate) == SensorIngest.FieldOf(latest, HeartRate);
    } else {
      assert SensorIngest.FieldOf(sent, HeartRate) == Snapshot.StaleDefault(HeartRate);
    }
  }

  /** The service; `saved` lists every record handed to the database, in order. */
  class ProcessingService {
    const stateHolder: ProcessingStateHolder
    var saved: seq<HealthDataRecord>

    constructor(holder: ProcessingStateHolder)
      ensures stateHolder == holder && saved == []
    {
      stateHolder := holder;
      saved := [];
    }

    /**
     * `processIncomingData` on one inbox message, with the message decoder as
     * a parameter. A dropped message changes nothing; a shown record replaces
     * the displayed one; a saved record is also written, with the saving flag
     * raised and lowered around the write.
     */
    method ProcessIncomingData(json: string, decode: string -> Option<seq<HealthDataRecord>>)
      modifies this, stateHolder
      ensures stateHolder.inbox == old(stateHolder.inbox)
      ensures Dispatch(decode(json)).Dropped? ==> stateHolder.state == old(stateHolder.state) && saved == old(saved)
      ensures Dispatch(decode(json)).Shown? ==>
        && stateHolder.state == old(stateHolder.state).(latestAveragedData := Some(Dispatch(decode(json)).record))
        && saved == old(saved)
      ensures Dispatch(decode(json)).ShownAndSaved? ==>
        && stateHolder.state == UiState(Some(Dispatch(decode(json)).record), false)
        && saved == old(saved) + [Dispatch(decode(json)).record]
    {
      var outcome := Dispatch(decode(json));
      match outcome
      case Dropped =>
      case Shown(record) =>
        stateHolder.SetLatestAveragedData(record);
      case ShownAndSaved(record) =>
        stateHolder.SetLatestAveragedData(record);
        SaveToRealtimeDatabase(record);
    }

    /** `saveToRealtimeDatabase`: the write is bracketed by the saving flag. */
    method SaveToRealtimeDatabase(data: HealthDataRecord)
      modifies this, stateHolder
      ensures saved == old(saved) + [data]
      ensures stateHolder.state == old(stateHolder.state).(isSaving := false)
      ensures stateHolder.inbox == old(stateHolder.inbox)
    {
      stateHolder.SetSavingState(true);
      saved := saved + [data];
      stateHolder.SetSavingState(false);
    }
  }
}
