/**
 * The phone's shared screen state: the last record shown and whether a
 * database write is in flight, plus the inbox through which received
 * messages reach the processing service.
 */
module PhoneState {
  import opened Wrappers
  import opened HealthData

  /** The phone's `UiState`: the record on screen and the saving flag. */
  datatype UiState = UiState(latestAveragedData: Option<HealthDataRecord>, isSaving: bool)

  /** `UiState()`: nothing shown, not saving. */
  const InitialUiState: UiState := UiState(None, false)

  /**
   * The singleton state holder. `inbox` lists every message posted so far,
   * in posting order.
   */
  class ProcessingStateHolder {
    var state: UiState
    var inbox: seq<string>

    constructor()
      ensures state == InitialUiState && state.latestAveragedData.None? && !state.isSaving
      ensures inbox == []
    {
      state := InitialUiState;
      inbox := [];
    }

    /** `postData`: the message is delivered after every message posted before it. */
    method PostData(json: string)
      modifies this
      ensures inbox == old(inbox) + [json]
      ensures state == old(state)
    {
      inbox := inbox + [json];
    }

    /** `setLatestAveragedData`: replaces the shown record; the saving flag is kept. */
    method SetLatestAveragedData(data: HealthDataRecord)
      modifies this
      ensures state.latestAveragedData == Some(data) && state.isSaving == old(state.isSaving)
      ensures inbox == old(inbox)
    {
      state := state.(latestAveragedData := Some(data));
    }

    /** `setSavingState`: replaces the saving flag; the shown record is kept. */
    method SetSavingState(isSaving: bool)
      modifies this
      ensures state.isSaving == isSaving && state.latestAveragedData == old(state.latestAveragedData)
      ensures inbox == old(inbox)
    {
      state := state.(isSaving := isSaving);
    }
  }
}
