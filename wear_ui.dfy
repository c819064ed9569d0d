/**
 * The watch's screen state: the connection to the health tracking service,
 * the sensors the user selected, whether tracking runs and the last record
 * received.
 */
module WearUi {
  import opened Wrappers
  import opened HealthData

  datatype ConnectionState = Connecting | Connected | Disconnected | Failed

  /** A `HealthTrackerException`, identified by its error code. */
  datatype TrackerError = TrackerError(code: int)

  /** What the health tracking service connection reports. */
  datatype ConnectionMessage =
    | ConnectionSuccess
    | ConnectionFailed(exception: Option<TrackerError>)
    | ConnectionEnded

  datatype UiState = UiState(
    connectionState: ConnectionState,
    availableSensors: seq<TrackerType>,
    selectedSensors: set<TrackerType>,
    isTracking: bool,
    latestData: Option<HealthDataRecord>,
    connectionException: Option<TrackerError>)

  /** The five sensors offered, in display order. */
  const AvailableSensors: seq<TrackerType> :=
    [AccelerometerContinuous, HeartRateContinuous, PpgContinuous, SkinTemperatureContinuous, EdaContinuous]

  /** `UiState()`: disconnected, nothing selected, not tracking, no data, no error. */
  const InitialUiState: UiState := UiState(Disconnected, AvailableSensors, {}, false, None, None)

  /** The selection after toggling `t`: `t` flips, every other sensor keeps its membership. */
  function Toggled(selected: set<TrackerType>, t: TrackerType): (r: set<TrackerType>)
    ensures t in r <==> t !in selected
    ensures forall u :: u != t ==> (u in r <==> u in selected)
  {
    if t in selected then selected - {t} else selected + {t}
  }

  /** Toggling the same sensor twice restores the selection. */
  lemma ToggleTwice(selected: set<TrackerType>, t: TrackerType)
    ensures Toggled(Toggled(selected, t), t) == selected
  {
    var once := Toggled(selected, t);
    var twice := Toggled(once, t);
    forall u
      ensures u in twice <==> u in selected
    {
      if u == t {
        assert t in once <==> t !in selected;
      }
    }
  }

  /**
   * The screen state after a connection message: success connects, failure
   * records the exception, the end disconnects. Nothing else changes.
   */
  function AfterMessage(state: UiState, msg: ConnectionMessage): (r: UiState)
    ensures msg.ConnectionSuccess? ==> r == state.(connectionState := Connected)
    ensures msg.ConnectionFailed? ==> r == state.(connectionState := Failed, connectionException := msg.exception)
    ensures msg.ConnectionEnded? ==> r == state.(connectionState := Disconnected)
    ensures r.selectedSensors == state.selectedSensors && r.isTracking == state.isTracking
    ensures r.latestData == state.latestData && r.availableSensors == state.availableSensors
  {
    match msg
    case ConnectionSuccess => state.(connectionState := Connected)
    case ConnectionFailed(e) => state.(connectionState := Failed, connectionException := e)
    case ConnectionEnded => state.(connectionState := Disconnected)
  }

  /**
   * The watch's view model. `connectionJobActive` and `trackingJobActive`
   * stand for the two coroutine jobs being alive.
   */
  class MainViewModel {
    var uiState: UiState
    var connectionJobActive: bool
    var trackingJobActive: bool

    /** Construction runs `setUpTracking` once, from the initial state. */
    constructor()
      ensures uiState == InitialUiState.(connectionState := Connecting)
      ensures connectionJobActive && !trackingJobActive
    {
      uiState := InitialUiState;
      connectionJobActive := false;
      trackingJobActive := false;
      new;
      SetUpTracking();
    }

    /**
     * `setUpTracking`: nothing while a connection job runs or when already
     * connected; otherwise start collecting connection messages, Connecting.
     */
    method SetUpTracking()
      modifies this
      ensures old(connectionJobActive) || old(uiState.connectionState) == Connected ==> unchanged(this)
      ensures !old(connectionJobActive) && old(uiState.connectionState) != Connected ==>
        && connectionJobActive
        && uiState == old(uiState).(connectionState := Connecting)
        && trackingJobActive == old(trackingJobActive)
    {
      if connectionJobActive || uiState.connectionState == Connected {
        return;
      }
      connectionJobActive := true;
      uiState := uiState.(connectionState := Connecting);
    }

    /**
     * One message collected from the connection flow. The flow closes after
     * the end message, which completes the connection job.
     */
    method OnConnectionMessage(msg: ConnectionMessage)
      requires connectionJobActive
      modifies this
      ensures uiState == AfterMessage(old(uiState), msg)
      ensures connectionJobActive == !msg.ConnectionEnded?
      ensures trackingJobActive == old(trackingJobActive)
    {
      uiState := AfterMessage(uiState, msg);
      if msg.ConnectionEnded? {
        connectionJobActive := false;
      }
    }

    /** `toggleTracker`: flip one sensor in the selection. */
    method ToggleTracker(t: TrackerType)
      modifies this
      ensures uiState == old(uiState).(selectedSensors := Toggled(old(uiState.selectedSensors), t))
      ensures connectionJobActive == old(connectionJobActive) && trackingJobActive == old(trackingJobActive)
    {
      uiState := uiState.(selectedSensors := Toggled(uiState.selectedSensors, t));
    }

    /**
     * `startTracking`: nothing with an empty selection; otherwise the previous
     * tracking job is replaced by a new one and tracking is on.
     */
    method StartTracking()
      modifies this
      ensures old(uiState.selectedSensors) == {} ==> unchanged(this)
      ensures old(uiState.selectedSensors) != {} ==>
        && uiState == old(uiState).(isTracking := true)
        && trackingJobActive
        && connectionJobActive == old(connectionJobActive)
    {
      if uiState.selectedSensors == {} {
        return;
      }
      trackingJobActive := true;
      uiState := uiState.(isTracking := true);
    }

    /** A record emitted by the tracking flow replaces the displayed one. */
    method OnRecordReceived(record: HealthDataRecord)
      requires trackingJobActive
      modifies this
      ensures uiState == old(uiState).(latestData := Some(record))
      ensures connectionJobActive == old(connectionJobActive) && trackingJobActive == old(trackingJobActive)
    {
      uiState := uiState.(latestData := Some(record));
    }

    /** `stopTracking`: the tracking job ends, tracking is off and the displayed record is cleared. */
    method StopTracking()
      modifies this
      ensures uiState == old(uiState).(isTracking := false, latestData := None)
      ensures !trackingJobActive && connectionJobActive == old(connectionJobActive)
    {
      trackingJobActive := false;
      uiState := uiState.(isTracking := false, latestData := None);
    }
  }
}
