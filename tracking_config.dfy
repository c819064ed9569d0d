/** The timing and window constants of the watch-side tracking repository. */
module TrackingConfig {

  /** A field not updated for this many milliseconds is stale. */
  const DATA_STALE_MS: int := 60_000

  /** Assumed PPG sampling rate in Hz and the PPG analysis window in seconds. */
  const PPG_FS: nat := 25
  const PPG_WINDOW_SECONDS: nat := 5

  /** Capacity of each PPG buffer: 5 s at 25 Hz. */
  const PPG_WINDOW_SAMPLES: nat := PPG_WINDOW_SECONDS * PPG_FS

  /** Capacity of the heart-rate buffer: 120 s at one sample per second. */
  const HR_WINDOW_SECONDS: nat := 120

  /** Respiration rate needs at least 30 heart-rate samples. */
  const MIN_HR_SAMPLES_FOR_RESP: nat := 30

  /** BVP and SpO2 need 80% of the PPG window. */
  const MIN_PPG_SAMPLES_FOR_SPO2: nat := PPG_WINDOW_SAMPLES * 8 / 10

  /** The simulated electrodermal activity never drops below this conductance. */
  const SIM_EDA_FLOOR: real := 0.1
}
