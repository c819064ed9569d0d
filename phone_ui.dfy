/**
 * The phone's view model: records received from the watch are buffered, and
 * once a second the buffer is drained into one averaged record that is shown
 * and written to the database.
 */
module PhoneUi {
  import opened Wrappers
  import opened HealthData
  import opened PhoneState
  import opened PhoneAveraging

  /**
   * `dataBuffer` holds the records not yet averaged; `saved` lists every
   * record handed to the database, in order.
   */
  class MainViewModel {
    var uiState: UiState
    var dataBuffer: seq<HealthDataRecord>
    var saved: seq<HealthDataRecord>

    constructor()
      ensures uiState == InitialUiState && dataBuffer == [] && saved == []
    {
      uiState := InitialUiState;
      dataBuffer := [];
      saved := [];
    }

    /** `onNewDataReceived`: the incoming records are appended, in order. */
    method OnNewDataReceived(data: seq<HealthDataRecord>)
      modifies this
      ensures dataBuffer == old(dataBuffer) + data
      ensures uiState == old(uiState) && saved == old(saved)
    {
      dataBuffer := dataBuffer + data;
    }

    /**
     * `saveToRealtimeDatabase`: the saving flag is raised, the record is
     * written, and the flag is lowered whether or not the write succeeded.
     */
    method SaveToRealtimeDatabase(data: HealthDataRecord)
      modifies this
      ensures saved == old(saved) + [data]
      ensures uiState == old(uiState).(isSaving := false)
      ensures dataBuffer == old(dataBuffer)
    {
      uiState := uiState.(isSaving := true);
      saved := saved + [data];
      uiState := uiState.(isSaving := false);
    }

    /**
     * `processAndSaveBufferedData`: nothing while the buffer is empty;
     * otherwise the whole buffer is taken and cleared, and its average,
     * stamped `now`, is shown and saved.
     */
    method ProcessAndSaveBufferedData(now: int)
      modifies this
      ensures old(dataBuffer) == [] ==> unchanged(this)
      ensures old(dataBuffer) != [] ==>
        && dataBuffer == []
        && uiState == UiState(Some(Averaged(old(dataBuffer), now)), false)
        && saved == old(saved) + [Averaged(old(dataBuffer), now)]
    {
      if dataBuffer == [] {
        return;
      }
      var snapshot := dataBuffer;
      dataBuffer := [];
      var averaged := Averaged(snapshot, now);
      uiState := uiState.(latestAveragedData := Some(averaged));
      SaveToRealtimeDatabase(averaged);
    }
  }
}
