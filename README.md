# HealthDataSync core, modelled in Dafny

HealthDataSync streams vital signs from a Galaxy Watch to a phone. On the
watch, a tracking repository subscribes to the Samsung Health sensor trackers
(PPG, heart rate, accelerometer, skin temperature, EDA). It folds every data
point into a "latest record", per-key update timestamps and bounded sliding
windows. Every five seconds it derives respiration rate, blood-volume pulse
and SpO2 from the windows. Once a second it sends a snapshot in which stale
fields are replaced by defaults; nothing is sent while the watch is off the
wrist. The watch's view model tracks the service connection and the user's
sensor selection, and the capability repository turns the platform's
capability-to-nodes answer into nodes-to-capabilities.

On the phone, a foreground service takes each message from an inbox, decodes
it, shows the first record and saves it unless its heart rate is missing or
zero. The phone's view model buffers records and drains the buffer once a
second into one per-field average, which is shown and saved.

The project has one module per part of that system:

| module | file | what it holds |
|---|---|---|
| `Wrappers` | wrappers.dfy | `Option` |
| `Numeric` | numeric.dfy | sums, means, Kotlin's truncating `toInt` |
| `TrackingConfig` | tracking_config.dfy | the repository's constants |
| `HealthData` | health_data.dfy | `HealthDataRecord`, tracker types, value keys |
| `SlidingWindow` | sliding_window.dfy | bounded FIFO windows and their pruning loop |
| `SensorIngest` | sensor_ingest.dfy | the event listener, as a function on the sensor state |
| `SignalProcessing` | signal_processing.dfy | detrending, SpO2, the respiration peak search |
| `Snapshot` | snapshot.dfy | staleness, the off-wrist rule, the snapshot record |
| `WatchTracking` | tracking_repository.dfy | the tracking repository as a class |
| `Capabilities` | capabilities.dfy | the capability inversion |
| `WearUi` | wear_ui.dfy | the watch view model |
| `PhoneState` | phone_state.dfy | the phone's UI state holder and inbox |
| `PhoneAveraging` | phone_averaging.dfy | per-field averaging of a drained buffer |
| `PhoneUi` | phone_ui.dfy | the phone view model |
| `PhoneService` | processing_service.dfy | the phone's message processing service |

Code that computes values (the listener's effect on one data point, detrending,
SpO2, staleness, averaging, the capability inversion) is modelled as
functions, with lemmas about them. Objects whose fields the source updates in
place (the tracking repository, the two view models, the state holder, the
service) are classes whose methods are proved against those functions. The
loops the source has are methods with loop invariants: the window pruning,
the batch of data points in `onDataReceived` and the spectral peak search.

## Model

Source paths are relative to the repository root.

| member | source | states |
|---|---|---|
| `SlidingWindow.Last` | wear/src/main/java/com/samsung/health/hrdatatransfer/data/TrackingRepositoryImpl.kt:301-303 | a window of capacity `cap` keeps exactly the newest `min(n, cap)` samples, as a suffix |
| `SlidingWindow.PruneFront` | wear/src/main/java/com/samsung/health/hrdatatransfer/data/TrackingRepositoryImpl.kt:301-303 | the `while (size > cap) poll()` loop leaves exactly the last `cap` elements in order |
| `SlidingWindow.PushAfterLast` | wear/src/main/java/com/samsung/health/hrdatatransfer/data/TrackingRepositoryImpl.kt:296-303 | pruning after every push is the same as keeping the last `cap` of all samples ever pushed |
| `SensorIngest.IngestPpg` | wear/src/main/java/com/samsung/health/hrdatatransfer/data/TrackingRepositoryImpl.kt:289-317 | the PPG branch records the three values and stamps all three keys with `now`; the windows stay in lock step and within 125 |
| `SensorIngest.IngestHr` | wear/src/main/java/com/samsung/health/hrdatatransfer/data/TrackingRepositoryImpl.kt:318-337 | heart rate and IBI are recorded; heart rate is always stamped, IBI only when the list is non-null, otherwise its old stamp stays |
| `SensorIngest.IngestAcc` | wear/src/main/java/com/samsung/health/hrdatatransfer/data/TrackingRepositoryImpl.kt:338-349 | the three axes are recorded and stamped; no window changes |
| `SensorIngest.Ingest` | wear/src/main/java/com/samsung/health/hrdatatransfer/data/TrackingRepositoryImpl.kt:287-372 | one data point keeps the windows valid; a point whose `getValue` would throw leaves the state unchanged |
| `SensorIngest.IngestWritesChannel` | wear/src/main/java/com/samsung/health/hrdatatransfer/data/TrackingRepositoryImpl.kt:288-369 | every key of the tracker's channel gets the value read from the point, and every key except a null IBI list is stamped `now` |
| `SensorIngest.IngestOnlyChannel` | wear/src/main/java/com/samsung/health/hrdatatransfer/data/TrackingRepositoryImpl.kt:288-369 | a data point of one tracker leaves every other field, every other stamp and the other windows unchanged |
| `SensorIngest.IngestAll` | wear/src/main/java/com/samsung/health/hrdatatransfer/data/TrackingRepositoryImpl.kt:284-373 | a whole batch, point by point, keeps the windows in lock step and within capacity |
| `SensorIngest.IngestAllOnlyChannel` | wear/src/main/java/com/samsung/health/hrdatatransfer/data/TrackingRepositoryImpl.kt:284-373 | a batch of one tracker changes nothing outside that tracker's channel (by induction over the batch) |
| `SensorIngest.UnreadablePointSkipped` | wear/src/main/java/com/samsung/health/hrdatatransfer/data/TrackingRepositoryImpl.kt:370-372 | the per-point catch: a batch with an unreadable point has the same effect as the batch without it |
| `SensorIngest.PpgWindowHoldsLastSamples` | wear/src/main/java/com/samsung/health/hrdatatransfer/data/TrackingRepositoryImpl.kt:289-304 | after a PPG batch each PPG window is the last 125 of what it held plus the batch's readable samples, in order |
| `SensorIngest.HrWindowHoldsLastSamples` | wear/src/main/java/com/samsung/health/hrdatatransfer/data/TrackingRepositoryImpl.kt:318-324 | after a heart-rate batch the window is the last 120 `(now, bpm)` pairs of what it held plus the batch, in order |
| `Snapshot.LastUpdate` | wear/src/main/java/com/samsung/health/hrdatatransfer/data/TrackingRepositoryImpl.kt:266 | a key with no stamp counts as updated at time 0 |
| `Snapshot.GetStaleData` | wear/src/main/java/com/samsung/health/hrdatatransfer/data/TrackingRepositoryImpl.kt:265-272 | the live value is returned iff the key was updated less than 60 000 ms ago (when the two values differ); a never-stamped key is stale from 60 000 on |
| `Snapshot.AssembleSnapshot` | wear/src/main/java/com/samsung/health/hrdatatransfer/data/TrackingRepositoryImpl.kt:225-248 | the snapshot is stamped `now`; every staleness-checked field is the live one if fresh and its default (0, 0.0 or null IBI) if stale; EDA and ECG fall back to the simulation; BVP, SpO2 and respiration come from the caches |
| `Snapshot.StaleHeartRateSentAsZero` | wear/src/main/java/com/samsung/health/hrdatatransfer/data/TrackingRepositoryImpl.kt:219-227 | the off-wrist test reads the raw heart rate, so a stale non-zero heart rate is still sent, as 0 |
| `Snapshot.NeverObservedYieldsDefaults` | wear/src/main/java/com/samsung/health/hrdatatransfer/data/TrackingRepositoryImpl.kt:227-240 | with no stamps, every staleness-checked field of the snapshot carries its default |
| `Snapshot.NextSimEda` | wear/src/main/java/com/samsung/health/hrdatatransfer/data/TrackingRepositoryImpl.kt:276-279 | with an EDA tracker the simulated EDA is unchanged; without one it drifts by at most 0.005 (down by up to 0.005, up by less than 0.005) and never drops below 0.1 |
| `WatchTracking.HrValues` | wear/src/main/java/com/samsung/health/hrdatatransfer/data/TrackingRepositoryImpl.kt:472 | the bpm column of the heart-rate window, same length and order |
| `WatchTracking.InitialSimEda` | wear/src/main/java/com/samsung/health/hrdatatransfer/data/TrackingRepositoryImpl.kt:116 | a session starts the simulated EDA in [0.75, 0.85) |
| `WatchTracking.TrackingRepository.constructor` | wear/src/main/java/com/samsung/health/hrdatatransfer/data/TrackingRepositoryImpl.kt:59-80 | default record, no stamps, empty windows, EDA 0.8, time 0, empty caches, no trackers |
| `WatchTracking.TrackingRepository.StopTracking` | wear/src/main/java/com/samsung/health/hrdatatransfer/data/TrackingRepositoryImpl.kt:83-95 | all trackers dropped, sensor state cleared; caches and simulation kept |
| `WatchTracking.TrackingRepository.Track` | wear/src/main/java/com/samsung/health/hrdatatransfer/data/TrackingRepositoryImpl.kt:97-158 | no service: nothing changes; otherwise sensor state, caches and time reset, EDA jittered, and each requested type the platform accepts is added to the active trackers |
| `WatchTracking.TrackingRepository.CloseSession` | wear/src/main/java/com/samsung/health/hrdatatransfer/data/TrackingRepositoryImpl.kt:253-262 | closing the flow drops the trackers and the stamps and keeps the record and the windows |
| `WatchTracking.TrackingRepository.IngestPpgSample` | wear/src/main/java/com/samsung/health/hrdatatransfer/data/TrackingRepositoryImpl.kt:289-317 | the in-place push and prune of the three PPG buffers equals `IngestPpg` |
| `WatchTracking.TrackingRepository.IngestHeartRateSample` | wear/src/main/java/com/samsung/health/hrdatatransfer/data/TrackingRepositoryImpl.kt:318-337 | the in-place heart-rate branch equals `IngestHr` |
| `WatchTracking.TrackingRepository.IngestDataPoint` | wear/src/main/java/com/samsung/health/hrdatatransfer/data/TrackingRepositoryImpl.kt:287-372 | one data point updates the fields as `Ingest` says and touches nothing else |
| `WatchTracking.TrackingRepository.OnDataReceived` | wear/src/main/java/com/samsung/health/hrdatatransfer/data/TrackingRepositoryImpl.kt:284-373 | the loop over the batch leaves the sensor state equal to `IngestAll` of the batch and keeps the repository valid |
| `WatchTracking.TrackingRepository.UpdateSimulatedValues` | wear/src/main/java/com/samsung/health/hrdatatransfer/data/TrackingRepositoryImpl.kt:274-280 | time advances by 0.1 and the EDA follows `NextSimEda`, depending on whether an EDA tracker is active |
| `WatchTracking.TrackingRepository.SnapshotTick` | wear/src/main/java/com/samsung/health/hrdatatransfer/data/TrackingRepositoryImpl.kt:209-252 | off the wrist (`Snapshot.OffWrist`: the raw heart rate is exactly 0, line 219) nothing is sent and nothing changes; otherwise the simulation advances and the assembled snapshot is sent |
| `WatchTracking.TrackingRepository.ProcessingTick` | wear/src/main/java/com/samsung/health/hrdatatransfer/data/TrackingRepositoryImpl.kt:161-170 | the respiration cache is absent iff fewer than 30 heart-rate samples, and otherwise is the spectral peak in [6, 30) breaths/min; the PPG cache is `ProcessPpgWindow` of the buffers |
| `SignalProcessing.SxxPositive` | wear/src/main/java/com/samsung/health/hrdatatransfer/data/TrackingRepositoryImpl.kt:530-536 | with two or more samples the regression's denominator is positive |
| `SignalProcessing.Regression` | wear/src/main/java/com/samsung/health/hrdatatransfer/data/TrackingRepositoryImpl.kt:530-539 | slope and intercept are undefined exactly when there are fewer than two samples |
| `SignalProcessing.Detrend` | wear/src/main/java/com/samsung/health/hrdatatransfer/data/TrackingRepositoryImpl.kt:529-546 | length is kept; a series too short to fit is returned unchanged |
| `SignalProcessing.RegressionOfLine` | wear/src/main/java/com/samsung/health/hrdatatransfer/data/TrackingRepositoryImpl.kt:530-536 | least squares recovers the slope and intercept of a linear series |
| `SignalProcessing.DetrendOfLine` | wear/src/main/java/com/samsung/health/hrdatatransfer/data/TrackingRepositoryImpl.kt:542-545 | detrending a linear series leaves all-zero residuals |
| `SignalProcessing.MeanSquare` | wear/src/main/java/com/samsung/health/hrdatatransfer/data/TrackingRepositoryImpl.kt:553 | the mean square under the root is never negative |
| `SignalProcessing.MeanSquareZeroIffFlat` | wear/src/main/java/com/samsung/health/hrdatatransfer/data/TrackingRepositoryImpl.kt:551-554 | the mean square is zero iff every sample is zero |
| `SignalProcessing.Clamp` | wear/src/main/java/com/samsung/health/hrdatatransfer/data/TrackingRepositoryImpl.kt:451 | `coerceIn`: in range, identity inside, the nearer bound outside |
| `SignalProcessing.CalculateSpo2` | wear/src/main/java/com/samsung/health/hrdatatransfer/data/TrackingRepositoryImpl.kt:430-460 | null iff a channel is empty, a DC mean is zero or the infrared RMS is zero; otherwise `Spo2FromRatio` of the ratio of ratios `(redRms / redDC) / (irRms / irDC)`, a value in [0, 100] |
| `SignalProcessing.Spo2Antitone` | wear/src/main/java/com/samsung/health/hrdatatransfer/data/TrackingRepositoryImpl.kt:448-451 | a larger ratio of ratios never gives a higher SpO2 |
| `SignalProcessing.CalculatedSpo2FallsWithRedAc` | wear/src/main/java/com/samsung/health/hrdatatransfer/data/TrackingRepositoryImpl.kt:437-451 | with the DC levels and the infrared AC fixed, more red AC energy never gives a higher computed SpO2 |
| `SignalProcessing.Spo2Unclamped` | wear/src/main/java/com/samsung/health/hrdatatransfer/data/TrackingRepositoryImpl.kt:451 | for ratios in [0.4, 4.4] SpO2 is exactly `110 - 25 R` |
| `SignalProcessing.Rms` | wear/src/main/java/com/samsung/health/hrdatatransfer/data/TrackingRepositoryImpl.kt:551-554 | 0 for an empty signal, otherwise the square root of the mean square |
| `SignalProcessing.RmsZeroIffFlat` | wear/src/main/java/com/samsung/health/hrdatatransfer/data/TrackingRepositoryImpl.kt:551-554 | with a square root that is zero only at zero, the RMS is zero iff every sample is zero (the empty signal included) |
| `SignalProcessing.IrRmsZeroIffFlat` | wear/src/main/java/com/samsung/health/hrdatatransfer/data/TrackingRepositoryImpl.kt:438-446 | the `irRms == 0` guard fires iff the detrended infrared signal is all zero |
| `SignalProcessing.ProcessPpgWindow` | wear/src/main/java/com/samsung/health/hrdatatransfer/data/TrackingRepositoryImpl.kt:398-425 | BVP is present iff the green window has at least 100 samples, and is then the last detrended green sample; SpO2 is then `CalculateSpo2`, and absent below 100 |
| `SignalProcessing.BvpOfLinearGreen` | wear/src/main/java/com/samsung/health/hrdatatransfer/data/TrackingRepositoryImpl.kt:417-419 | a green channel that is pure linear drift yields BVP 0 |
| `SignalProcessing.PaddedLength` | wear/src/main/java/com/samsung/health/hrdatatransfer/data/TrackingRepositoryImpl.kt:479 | `1 shl (32 - nlz(n - 1))` is a power of two `p` with `n <= p < 2n` |
| `SignalProcessing.PaddedSignal` | wear/src/main/java/com/samsung/health/hrdatatransfer/data/TrackingRepositoryImpl.kt:480-482 | the padded array is the detrended series followed by zeros, `paddedN` long |
| `SignalProcessing.PeakUnique` | wear/src/main/java/com/samsung/health/hrdatatransfer/data/TrackingRepositoryImpl.kt:502-511 | the first bin of strictly largest magnitude in the band is unique |
| `SignalProcessing.InBandRate` | wear/src/main/java/com/samsung/health/hrdatatransfer/data/TrackingRepositoryImpl.kt:498-504 | every bin the scan accepts converts to between 6 and 30 breaths per minute (30 excluded, as the scan stops below Nyquist) |
| `SignalProcessing.BandNonEmpty` | wear/src/main/java/com/samsung/health/hrdatatransfer/data/TrackingRepositoryImpl.kt:493-504 | a transform of 20 or more points always has an in-band bin, so with 30 samples a peak is always found |
| `SignalProcessing.PeakRespirationRate` | wear/src/main/java/com/samsung/health/hrdatatransfer/data/TrackingRepositoryImpl.kt:493-518 | null iff no bin is in the band; otherwise 60 times the frequency of the peak bin, in [6, 30) |
| `SignalProcessing.ProcessHrWindow` | wear/src/main/java/com/samsung/health/hrdatatransfer/data/TrackingRepositoryImpl.kt:465-524 | null iff fewer than 30 samples; otherwise the peak of the padded spectrum in breaths per minute, in [6, 30) |
| `Capabilities.FlatPairs` | wear/src/main/java/com/samsung/health/hrdatatransfer/data/CapabilityRepositoryImpl.kt:34-39 | a `(node, capability)` pair is produced iff the capability lists the node |
| `Capabilities.GroupBy` | wear/src/main/java/com/samsung/health/hrdatatransfer/data/CapabilityRepositoryImpl.kt:40-43 | each key has a non-empty group, and `c` is in `n`'s group iff the pair `(n, c)` was in the input |
| `Capabilities.ToSets` | wear/src/main/java/com/samsung/health/hrdatatransfer/data/CapabilityRepositoryImpl.kt:44 | the same keys, each with the set of its list's elements |
| `Capabilities.CapabilitiesForReachableNodes` | wear/src/main/java/com/samsung/health/hrdatatransfer/data/CapabilityRepositoryImpl.kt:45-48 | a failed lookup yields the empty map |
| `Capabilities.InversionExact` | wear/src/main/java/com/samsung/health/hrdatatransfer/data/CapabilityRepositoryImpl.kt:25-44 | node `n` maps to capability `c` iff the platform listed `n` under `c` |
| `Capabilities.InversionKeys` | wear/src/main/java/com/samsung/health/hrdatatransfer/data/CapabilityRepositoryImpl.kt:25-44 | the keys are exactly the nodes listed under some capability, and no node gets an empty set |
| `WearUi.Toggled` | wear/src/main/java/com/samsung/health/hrdatatransfer/presentation/MainViewModel.kt:116-119 | the toggled sensor flips membership; every other sensor keeps its membership |
| `WearUi.ToggleTwice` | wear/src/main/java/com/samsung/health/hrdatatransfer/presentation/MainViewModel.kt:115-121 | toggling the same sensor twice restores the selection |
| `WearUi.AfterMessage` | wear/src/main/java/com/samsung/health/hrdatatransfer/presentation/MainViewModel.kt:79-93 | success connects, failure records the exception, the end disconnects; the selection, tracking flag and data are untouched |
| `WearUi.MainViewModel.constructor` | wear/src/main/java/com/samsung/health/hrdatatransfer/presentation/MainViewModel.kt:66-68 | the view model starts Connecting with the connection job running and nothing selected |
| `WearUi.MainViewModel.SetUpTracking` | wear/src/main/java/com/samsung/health/hrdatatransfer/presentation/MainViewModel.kt:70-78 | no-op while a connection job runs or when connected; otherwise a job starts and the state is Connecting |
| `WearUi.MainViewModel.OnConnectionMessage` | wear/src/main/java/com/samsung/health/hrdatatransfer/presentation/MainViewModel.kt:79-93 | the state follows `AfterMessage`; the job ends exactly on the end message, whose flow closes |
| `WearUi.MainViewModel.ToggleTracker` | wear/src/main/java/com/samsung/health/hrdatatransfer/presentation/MainViewModel.kt:115-121 | only the selection changes, to `Toggled` |
| `WearUi.MainViewModel.StartTracking` | wear/src/main/java/com/samsung/health/hrdatatransfer/presentation/MainViewModel.kt:123-137 | an empty selection changes nothing; otherwise tracking is on with a fresh tracking job |
| `WearUi.MainViewModel.OnRecordReceived` | wear/src/main/java/com/samsung/health/hrdatatransfer/presentation/MainViewModel.kt:129-131 | each emitted record replaces the displayed one |
| `WearUi.MainViewModel.StopTracking` | wear/src/main/java/com/samsung/health/hrdatatransfer/presentation/MainViewModel.kt:160-164 | the tracking job ends, tracking is off and the displayed record is cleared |
| `PhoneState.ProcessingStateHolder.constructor` | mobile/src/main/java/com/samsung/health/mobile/presentation/ProcessingStateHolder.kt:12-25 | nothing shown, not saving, empty inbox |
| `PhoneState.ProcessingStateHolder.PostData` | mobile/src/main/java/com/samsung/health/mobile/presentation/ProcessingStateHolder.kt:31-33 | messages reach the inbox in posting order; the UI state is untouched |
| `PhoneState.ProcessingStateHolder.SetLatestAveragedData` | mobile/src/main/java/com/samsung/health/mobile/presentation/ProcessingStateHolder.kt:36-38 | the shown record is replaced and the saving flag is kept |
| `PhoneState.ProcessingStateHolder.SetSavingState` | mobile/src/main/java/com/samsung/health/mobile/presentation/ProcessingStateHolder.kt:40-42 | the saving flag is replaced and the shown record is kept |
| `PhoneAveraging.PresentValues` | mobile/src/main/java/com/samsung/health/mobile/presentation/MainViewModel.kt:66-77 | `mapNotNull`'s output holds only values present in the input and every present value, and is empty iff all entries are null (count and order: the two rows below) |
| `PhoneAveraging.PresentValuesCount` | mobile/src/main/java/com/samsung/health/mobile/presentation/MainViewModel.kt:66-77 | `mapNotNull` keeps as many values as the column has non-null entries, duplicates included |
| `PhoneAveraging.PresentValuesInOrder` | mobile/src/main/java/com/samsung/health/mobile/presentation/MainViewModel.kt:66-77 | the non-null entry at index `i` is kept at the position equal to the number of non-null entries before it, so the output is the present entries in record order |
| `PhoneAveraging.SumOfPresentValues` | mobile/src/main/java/com/samsung/health/mobile/presentation/MainViewModel.kt:67-71 | the kept floating-point values sum to the sum of the column's non-null entries |
| `PhoneAveraging.SumOfPresentInts` | mobile/src/main/java/com/samsung/health/mobile/presentation/MainViewModel.kt:66-77 | the kept integer values, widened, sum to the sum of the column's non-null entries |
| `PhoneAveraging.AverageOf` | mobile/src/main/java/com/samsung/health/mobile/presentation/MainViewModel.kt:66-71 | the average is null (NaN filtered) iff there are no values |
| `PhoneAveraging.AverageHr` | mobile/src/main/java/com/samsung/health/mobile/presentation/MainViewModel.kt:66 | the averaged heart rate is null iff no record has one |
| `PhoneAveraging.AverageNonZero` | mobile/src/main/java/com/samsung/health/mobile/presentation/MainViewModel.kt:72-77 | a PPG or accelerometer average is never 0 (0 becomes null) and is null when no record has the field |
| `PhoneAveraging.AverageReal` | mobile/src/main/java/com/samsung/health/mobile/presentation/MainViewModel.kt:67-71 | a float average is null iff no record has the field |
| `PhoneAveraging.AverageRealIsPresentMean` | mobile/src/main/java/com/samsung/health/mobile/presentation/MainViewModel.kt:67-71 | a float average is null iff no record has the field, and is otherwise the sum of the non-null entries divided by their count |
| `PhoneAveraging.AverageHrIsPresentMean` | mobile/src/main/java/com/samsung/health/mobile/presentation/MainViewModel.kt:66-81 | the heart-rate average is null iff no record has one, and is otherwise the non-null heart rates' sum over their count, truncated toward zero |
| `PhoneAveraging.AverageNonZeroIsPresentMean` | mobile/src/main/java/com/samsung/health/mobile/presentation/MainViewModel.kt:72-77 | a PPG or accelerometer average is the non-null entries' sum over their count truncated toward zero (0 with no entries), and null exactly when that is 0 |
| `PhoneAveraging.DuplicatesWeighAverage` | mobile/src/main/java/com/samsung/health/mobile/presentation/MainViewModel.kt:66 | repeated readings weigh the average: heart rates 60, 60, null, 90 average to 70 |
| `PhoneAveraging.Column` | mobile/src/main/java/com/samsung/health/mobile/presentation/MainViewModel.kt:66-77 | the column holds the field of each buffered record, in order |
| `PhoneAveraging.Averaged` | mobile/src/main/java/com/samsung/health/mobile/presentation/MainViewModel.kt:79-94 | the averaged record is stamped `now`, has no respiration rate, takes the last record's IBI (empty if null), and has no zero PPG or accelerometer value |
| `PhoneAveraging.AveragedVitalsNullIffAbsent` | mobile/src/main/java/com/samsung/health/mobile/presentation/MainViewModel.kt:66-68 | averaged heart rate, SpO2 and skin temperature are null iff no buffered record carries them |
| `PhoneAveraging.AveragedSignalsNullIffAbsent` | mobile/src/main/java/com/samsung/health/mobile/presentation/MainViewModel.kt:69-71 | averaged EDA, ECG and BVP are null iff no buffered record carries them |
| `PhoneAveraging.PresentMeanWithin` | mobile/src/main/java/com/samsung/health/mobile/presentation/MainViewModel.kt:67-71 | when every present value lies in [lo, hi], so does the float average |
| `PhoneAveraging.AveragedIntWithin` | mobile/src/main/java/com/samsung/health/mobile/presentation/MainViewModel.kt:66-77 | when every present value lies in integer bounds [lo, hi], so do the truncated heart-rate, PPG and accelerometer averages |
| `PhoneAveraging.AveragingCopiesIsIdentity` | mobile/src/main/java/com/samsung/health/mobile/presentation/MainViewModel.kt:66-94 | averaging copies of one record gives back that record, except the new timestamp, zero PPG/acceleration read as null, a null IBI as empty and no respiration rate |
| `PhoneUi.MainViewModel.constructor` | mobile/src/main/java/com/samsung/health/mobile/presentation/MainViewModel.kt:30-33 | nothing shown, not saving, empty buffer, nothing saved |
| `PhoneUi.MainViewModel.OnNewDataReceived` | mobile/src/main/java/com/samsung/health/mobile/presentation/MainViewModel.kt:41-43 | the records are appended to the buffer in order |
| `PhoneUi.MainViewModel.SaveToRealtimeDatabase` | mobile/src/main/java/com/samsung/health/mobile/presentation/MainViewModel.kt:103-117 | the record is written once and the saving flag ends lowered, whether or not the write succeeded |
| `PhoneUi.MainViewModel.ProcessAndSaveBufferedData` | mobile/src/main/java/com/samsung/health/mobile/presentation/MainViewModel.kt:56-100 | an empty buffer changes nothing; otherwise the buffer is emptied and its average is both shown and saved |
| `PhoneService.Dispatch` | mobile/src/main/java/com/samsung/health/mobile/presentation/ProcessingService.kt:70-99 | dropped iff decoding failed or the list is empty; otherwise the first record is shown, and saved iff it is `PhoneService.Saveable` (heart rate present and non-zero, line 82) |
| `PhoneService.OnlyFirstRecordConsidered` | mobile/src/main/java/com/samsung/health/mobile/presentation/ProcessingService.kt:74 | two lists with the same first record are handled identically |
| `PhoneService.SentSnapshotSavedIffFreshHeartRate` | mobile/src/main/java/com/samsung/health/mobile/presentation/ProcessingService.kt:82-95 | a watch snapshot is saved by the phone iff its raw heart rate is present, non-zero and fresh; a stale one arrives as 0 and is only shown |
| `PhoneService.ProcessingService.constructor` | mobile/src/main/java/com/samsung/health/mobile/presentation/ProcessingService.kt:70-72 | the service starts with its state holder and nothing saved |
| `PhoneService.ProcessingService.ProcessIncomingData` | mobile/src/main/java/com/samsung/health/mobile/presentation/ProcessingService.kt:70-100 | a dropped message changes nothing; a shown record replaces the displayed one; a saved record is also appended to the database log, with the saving flag lowered at the end |
| `PhoneService.ProcessingService.SaveToRealtimeDatabase` | mobile/src/main/java/com/samsung/health/mobile/presentation/ProcessingService.kt:103-115 | the record is written once and the saving flag ends lowered; the shown record and the inbox are kept |

## Left out

- Concurrency: coroutines, `@Volatile`, the PPG lock, the synchronized buffer and the flows. Each step is modelled as atomic, in the order one thread would run it.
- The ticker loops (`processingLoop`, `snapshotLoop`, `startDataProcessingTicker`, the inbox collector) and their delays. Only the body of one pass is modelled (`ProcessingTick`, `SnapshotTick`, `ProcessAndSaveBufferedData`, `ProcessIncomingData`).
- Floating point: doubles and floats are exact reals, so rounding, NaN propagation and the `.toFloat()` narrowing of results are not modelled. The NaN cases the source tests for (an empty average, a degenerate regression) are modelled as the branches they lead to.
- `SignalProcessing.Rms`: the square root is a parameter. `IrRmsZeroIffFlat` assumes only that it vanishes exactly at zero.
- `SignalProcessing.ProcessHrWindow`: the FFT is a parameter returning one non-negative magnitude per input sample, so which bin is the peak is not derived from the signal. The model also requires at most 2^30 samples so that the shift at line 479 cannot overflow; the window holds at most 120.
- The second `n < MIN_HR_SAMPLES_FOR_RESP` check in `processHrWindow` (line 475) is omitted because detrending keeps the length, so it can never fire.
- The try/catch blocks around `calculateSpo2` and `processHrWindow` are omitted because exact arithmetic raises nothing.
- `generateECGSample` (sine and exponential waves plus noise) is a parameter of `SnapshotTick`. `Random.nextFloat()` is a parameter `u` in [0, 1).
- `WatchTracking.TrackingRepository.Track`: the platform calls `getHealthTracker` and `setEventListener`, and their exceptions, are a parameter `subscribes` saying which types are accepted. Active trackers are a set of types rather than a map to tracker objects, and the failure is a returned flag instead of closing the flow with an exception.
- Value keys: the SDK's `ValueKey` objects, which the source stamps by their `toString()`, are a datatype with one constructor per key, assumed distinct. A data point is a map from keys to values; a missing key or a value of the wrong kind stands for `getValue` throwing, and such a point changes nothing.
- `HealthDataRecord` includes `respirationRate`. The record's declaration in wear/.../data/HealthDataRecord.kt lacks that field, but the repository writes it (TrackingRepositoryImpl.kt line 247). The model follows the code.
- The phone's `TrackedData` class (module `com.samsung.health.data`) is not part of this model. It is taken to have the same fields as `HealthDataRecord`.
- `PhoneState.ProcessingStateHolder.PostData`: the inbox is a log of every posted message. The source's `MutableSharedFlow` has no replay or buffer, so a message emitted while no collector is subscribed is lost, and `emit` suspends until collectors take it. Neither the loss nor the suspension is modelled.
- The phone's two identical `UiState` declarations, in MainViewModel.kt and ProcessingStateHolder.kt, are modelled once, in `PhoneState`.
- `PhoneUi.MainViewModel.SaveToRealtimeDatabase` and `PhoneService.ProcessingService.SaveToRealtimeDatabase`: the Firebase write is an append to a `saved` log and runs synchronously. A failed write is swallowed in the source, so the log records every attempt.
- JSON: `HelpFunctions.decodeMessage` is a parameter of `ProcessIncomingData`, and a decoding exception is its `None`.
- Networking and discovery: `findPhoneNode`, `sendDataRecord`, the message client and `DataListenerService` are not part of this model. Node objects are their identifiers, and each capability's node set is a sequence.
- `WearUi.MainViewModel.StartTracking` does not model the use case's flow or its `catch`. Records it emits arrive through `OnRecordReceived`.
- Android UI (Compose screens, activities), dependency injection, logging and `TrackingStateHolder.kt` are not part of this model.
