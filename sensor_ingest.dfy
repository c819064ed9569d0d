/**
 * The event listener of the watch's tracking repository, as a function on
 * values: one data point of one tracker updates the latest record, the
 * per-key update timestamps and the bounded PPG and heart-rate windows.
 */
module SensorIngest {
  import opened Wrappers
  import opened HealthData
  import opened SlidingWindow
  import opened TrackingConfig

  /** A value a data point exposes under a key: an int, a float, or a nullable int list. */
  datatype SensorValue =
    | IntValue(i: int)
    | FloatValue(f: real)
    | IntListValue(list: Option<seq<int>>)

  /** A data point maps value keys to values; a key it lacks makes `getValue` throw. */
  type DataPoint = map<ValueKey, SensorValue>

  /** The keys the branch for `tracker` reads, writes into the latest record and stamps. */
  function Channel(tracker: TrackerType): set<ValueKey>
  {
    match tracker
    case PpgContinuous => {PpgGreen, PpgIr, PpgRed}
    case HeartRateContinuous => {HeartRate, IbiList}
    case AccelerometerContinuous => {AccelerometerX, AccelerometerY, AccelerometerZ}
    case SkinTemperatureContinuous => {ObjectTemperature}
    case EdaContinuous => {SkinConductance}
    case OtherTracker => {}
  }

  /** The kind of value `getValue` returns for each key. */
  predicate Fits(key: ValueKey, v: SensorValue)
  {
    match key
    case IbiList => v.IntListValue?
    case ObjectTemperature => v.FloatValue?
    case SkinConductance => v.FloatValue?
    case _ => v.IntValue?
  }

  /** Every `getValue` of the branch succeeds; otherwise the branch throws before writing anything. */
  predicate Readable(tracker: TrackerType, dp: DataPoint)
  {
    forall k :: k in Channel(tracker) ==> k in dp && Fits(k, dp[k])
  }

  /** A field of the latest record, seen through the key that feeds it. */
  datatype FieldValue =
    | IntField(int?: Option<int>)
    | RealField(real?: Option<real>)
    | ListField(list?: Option<seq<int>>)

  function FieldOf(rec: HealthDataRecord, key: ValueKey): FieldValue
  {
    match key
    case PpgGreen => IntField(rec.ppgGreen)
    case PpgIr => IntField(rec.ppgIr)
    case PpgRed => IntField(rec.ppgRed)
    case HeartRate => IntField(rec.hr)
    case IbiList => ListField(rec.ibi)
    case AccelerometerX => IntField(rec.accX)
    case AccelerometerY => IntField(rec.accY)
    case AccelerometerZ => IntField(rec.accZ)
    case ObjectTemperature => RealField(rec.skinTemp)
    case SkinConductance => RealField(rec.eda)
  }

  /** The record field a value read from a data point becomes. */
  function AsField(v: SensorValue): FieldValue
  {
    match v
    case IntValue(i) => IntField(Some(i))
    case FloatValue(f) => RealField(Some(f))
    case IntListValue(list) => ListField(list)
  }

  /** The part of the repository the listener writes. `hr` holds (arrival time, bpm) pairs. */
  datatype SensorState = SensorState(
    latest: HealthDataRecord,
    stamps: map<ValueKey, int>,
    green: seq<real>,
    ir: seq<real>,
    red: seq<real>,
    hr: seq<(int, real)>)

  /** The three PPG windows move in lock step, and every window is within capacity. */
  predicate Valid(s: SensorState)
  {
    && |s.green| == |s.ir| == |s.red| <= PPG_WINDOW_SAMPLES
    && |s.hr| <= HR_WINDOW_SECONDS
  }

  /** The state after `stopTracking` or at the start of a session: default record, no stamps, empty windows. */
  const Cleared: SensorState := SensorState(DefaultRecord, map[], [], [], [], [])

  /** Key `k` carries the same stamp (or none) in both maps. */
  predicate SameStamp(a: map<ValueKey, int>, b: map<ValueKey, int>, k: ValueKey)
  {
    (k in a <==> k in b) && (k in a ==> a[k] == b[k])
  }

  /** The fields no ingest branch writes. */
  predicate SameUnsensed(a: HealthDataRecord, b: HealthDataRecord)
  {
    && a.timestamp == b.timestamp
    && a.ecg == b.ecg
    && a.spo2 == b.spo2
    && a.bvp == b.bvp
    && a.respirationRate == b.respirationRate
  }

  /** Everything outside the channel of `tracker` is as it was. */
  predicate OnlyChannelChanged(s: SensorState, r: SensorState, tracker: TrackerType)
  {
    && SameUnsensed(r.latest, s.latest)
    && (forall k :: k !in Channel(tracker) ==> FieldOf(r.latest, k) == FieldOf(s.latest, k))
    && (forall k :: k !in Channel(tracker) ==> SameStamp(r.stamps, s.stamps, k))
    && (tracker != PpgContinuous ==> r.green == s.green && r.ir == s.ir && r.red == s.red)
    && (tracker != HeartRateContinuous ==> r.hr == s.hr)
  }

  /** The PPG branch: push the three channels together, record them, stamp them. */
  function IngestPpg(s: SensorState, green: int, ir: int, red: int, now: int): (r: SensorState)
    ensures Valid(s) ==> Valid(r)
    ensures r.latest.ppgGreen == Some(green) && r.latest.ppgIr == Some(ir) && r.latest.ppgRed == Some(red)
    ensures forall k :: k in Channel(PpgContinuous) ==> k in r.stamps && r.stamps[k] == now
  {
    s.(green := Push(s.green, green as real, PPG_WINDOW_SAMPLES),
       ir := Push(s.ir, ir as real, PPG_WINDOW_SAMPLES),
       red := Push(s.red, red as real, PPG_WINDOW_SAMPLES),
       latest := s.latest.(ppgGreen := Some(green), ppgIr := Some(ir), ppgRed := Some(red)),
       stamps := s.stamps[PpgGreen := now][PpgIr := now][PpgRed := now])
  }

  /**
   * The heart-rate branch: push (now, bpm), record bpm and the IBI list, stamp
   * the heart rate, and stamp the IBI list only when it is non-null.
   */
  function IngestHr(s: SensorState, hr: int, ibiList: Option<seq<int>>, now: int): (r: SensorState)
    ensures Valid(s) ==> Valid(r)
    ensures r.latest.hr == Some(hr) && r.latest.ibi == ibiList
    ensures HeartRate in r.stamps && r.stamps[HeartRate] == now
    ensures ibiList.Some? ==> IbiList in r.stamps && r.stamps[IbiList] == now
    ensures ibiList.None? ==> SameStamp(r.stamps, s.stamps, IbiList)
  {
    s.(hr := Push(s.hr, (now, hr as real), HR_WINDOW_SECONDS),
       latest := s.latest.(hr := Some(hr), ibi := ibiList),
       stamps := if ibiList.Some? then s.stamps[HeartRate := now][IbiList := now]
                 else s.stamps[HeartRate := now])
  }

  /** The accelerometer branch: record and stamp the three axes. */
  function IngestAcc(s: SensorState, x: int, y: int, z: int, now: int): (r: SensorState)
    ensures r.latest.accX == Some(x) && r.latest.accY == Some(y) && r.latest.accZ == Some(z)
    ensures r.green == s.green && r.ir == s.ir && r.red == s.red && r.hr == s.hr
    ensures forall k :: k in Channel(AccelerometerContinuous) ==> k in r.stamps && r.stamps[k] == now
  {
    s.(latest := s.latest.(accX := Some(x), accY := Some(y), accZ := Some(z)),
       stamps := s.stamps[AccelerometerX := now][AccelerometerY := now][AccelerometerZ := now])
  }

  /**
   * One data point of `onDataReceived`, arriving at time `now`. An unreadable
   * point is caught and logged and leaves everything as it was.
   */
  function Ingest(s: SensorState, tracker: TrackerType, dp: DataPoint, now: int): (r: SensorState)
    ensures Valid(s) ==> Valid(r)
    ensures !Readable(tracker, dp) ==> r == s
  {
    if !Readable(tracker, dp) then s
    else
      match tracker
      case PpgContinuous => IngestPpg(s, dp[PpgGreen].i, dp[PpgIr].i, dp[PpgRed].i, now)
      case HeartRateContinuous => IngestHr(s, dp[HeartRate].i, dp[IbiList].list, now)
      case AccelerometerContinuous =>
        IngestAcc(s, dp[AccelerometerX].i, dp[AccelerometerY].i, dp[AccelerometerZ].i, now)
      case SkinTemperatureContinuous =>
        s.(latest := s.latest.(skinTemp := Some(dp[ObjectTemperature].f)),
           stamps := s.stamps[ObjectTemperature := now])
      case EdaContinuous =>
        s.(latest := s.latest.(eda := Some(dp[SkinConductance].f)),
           stamps := s.stamps[SkinConductance := now])
      case OtherTracker => s
  }

  /** The channel writes of a readable PPG point. */
  lemma PpgWritesChannel(s: SensorState, dp: DataPoint, now: int)
    requires Readable(PpgContinuous, dp)
    ensures var r := Ingest(s, PpgContinuous, dp, now);
      forall k :: k in Channel(PpgContinuous) ==> FieldOf(r.latest, k) == AsField(dp[k]) && k in r.stamps && r.stamps[k] == now
  {
    assert dp[PpgGreen].IntValue? && dp[PpgIr].IntValue? && dp[PpgRed].IntValue?;
  }

  /** The channel writes of a readable heart-rate point: the IBI stamp moves only with a non-null list. */
  lemma HrWritesChannel(s: SensorState, dp: DataPoint, now: int)
    requires Readable(HeartRateContinuous, dp)
    ensures var r := Ingest(s, HeartRateContinuous, dp, now);
      && FieldOf(r.latest, HeartRate) == AsField(dp[HeartRate])
      && FieldOf(r.latest, IbiList) == AsField(dp[IbiList])
      && HeartRate in r.stamps && r.stamps[HeartRate] == now
      && if dp[IbiList].list.Some? then IbiList in r.stamps && r.stamps[IbiList] == now
         else SameStamp(r.stamps, s.stamps, IbiList)
  {
    assert dp[HeartRate].IntValue? && dp[IbiList].IntListValue?;
  }

  /** The channel writes of a readable accelerometer point. */
  lemma AccWritesChannel(s: SensorState, dp: DataPoint, now: int)
    requires Readable(AccelerometerContinuous, dp)
    ensures var r := Ingest(s, AccelerometerContinuous, dp, now);
      forall k :: k in Channel(AccelerometerContinuous) ==> FieldOf(r.latest, k) == AsField(dp[k]) && k in r.stamps && r.stamps[k] == now
  {
    assert dp[AccelerometerX].IntValue? && dp[AccelerometerY].IntValue? && dp[AccelerometerZ].IntValue?;
  }

  /** A readable PPG point changes only the PPG fields, stamps and windows. */
  lemma PpgOnlyChannel(s: SensorState, dp: DataPoint, now: int)
    requires Readable(PpgContinuous, dp)
    ensures OnlyChannelChanged(s, Ingest(s, PpgContinuous, dp, now), PpgContinuous)
  {
    var r := IngestPpg(s, dp[PpgGreen].i, dp[PpgIr].i, dp[PpgRed].i, now);
    assert Ingest(s, PpgContinuous, dp, now) == r;
    assert r.latest == s.latest.(ppgGreen := Some(dp[PpgGreen].i), ppgIr := Some(dp[PpgIr].i), ppgRed := Some(dp[PpgRed].i));
  }

  /** A readable heart-rate point changes only the heart-rate fields, stamps and window. */
  lemma HrOnlyChannel(s: SensorState, dp: DataPoint, now: int)
    requires Readable(HeartRateContinuous, dp)
    ensures OnlyChannelChanged(s, Ingest(s, HeartRateContinuous, dp, now), HeartRateContinuous)
  {
    var r := IngestHr(s, dp[HeartRate].i, dp[IbiList].list, now);
    assert Ingest(s, HeartRateContinuous, dp, now) == r;
    assert r.latest == s.latest.(hr := Some(dp[HeartRate].i), ibi := dp[IbiList].list);
  }

  /** A readable accelerometer point changes only the accelerometer fields and stamps. */
  lemma AccOnlyChannel(s: SensorState, dp: DataPoint, now: int)
    requires Readable(AccelerometerContinuous, dp)
    ensures OnlyChannelChanged(s, Ingest(s, AccelerometerContinuous, dp, now), AccelerometerContinuous)
  {
    var r := IngestAcc(s, dp[AccelerometerX].i, dp[AccelerometerY].i, dp[AccelerometerZ].i, now);
    assert Ingest(s, AccelerometerContinuous, dp, now) == r;
    assert r.latest == s.latest.(accX := Some(dp[AccelerometerX].i), accY := Some(dp[AccelerometerY].i), accZ := Some(dp[AccelerometerZ].i));
  }

  /** A data point changes only its own channel's fields, stamps and windows. */
  lemma IngestOnlyChannel(s: SensorState, tracker: TrackerType, dp: DataPoint, now: int)
    ensures OnlyChannelChanged(s, Ingest(s, tracker, dp, now), tracker)
  {
    if Readable(tracker, dp) {
      match tracker
      case PpgContinuous => PpgOnlyChannel(s, dp, now);
      case HeartRateContinuous => HrOnlyChannel(s, dp, now);
      case AccelerometerContinuous => AccOnlyChannel(s, dp, now);
      case SkinTemperatureContinuous =>
      case EdaContinuous =>
      case OtherTracker =>
    }
  }

  /**
   * A readable point writes each of its channel's values into the latest record
   * and stamps each of its channel's keys with `now`, except a null IBI list,
   * whose previous stamp stays.
   */
  lemma IngestWritesChannel(s: SensorState, tracker: TrackerType, dp: DataPoint, now: int)
    requires Readable(tracker, dp)
    ensures forall k :: k in Channel(tracker) ==> FieldOf(Ingest(s, tracker, dp, now).latest, k) == AsField(dp[k])
    ensures forall k :: k in Channel(tracker) && k != IbiList ==>
      var r := Ingest(s, tracker, dp, now); k in r.stamps && r.stamps[k] == now
    ensures tracker == HeartRateContinuous ==>
      var r := Ingest(s, tracker, dp, now);
      if dp[IbiList].list.Some? then IbiList in r.stamps && r.stamps[IbiList] == now
      else SameStamp(r.stamps, s.stamps, IbiList)
  {
    match tracker
    case PpgContinuous => PpgWritesChannel(s, dp, now);
    case HeartRateContinuous => HrWritesChannel(s, dp, now);
    case AccelerometerContinuous => AccWritesChannel(s, dp, now);
    case SkinTemperatureContinuous =>
      assert dp[ObjectTemperature].FloatValue?;
    case EdaContinuous =>
      assert dp[SkinConductance].FloatValue?;
    case OtherTracker =>
  }

  /** A whole batch of `onDataReceived`, in order, all stamped with the same `now`. */
  function IngestAll(s: SensorState, tracker: TrackerType, dps: seq<DataPoint>, now: int): (r: SensorState)
    ensures Valid(s) ==> Valid(r)
  {
    if dps == [] then s
    else Ingest(IngestAll(s, tracker, dps[..|dps| - 1], now), tracker, dps[|dps| - 1], now)
  }

  /** A batch of one tracker leaves every other channel, and the unsensed fields, as they were. */
  lemma {:induction false} IngestAllOnlyChannel(s: SensorState, tracker: TrackerType, dps: seq<DataPoint>, now: int)
    ensures OnlyChannelChanged(s, IngestAll(s, tracker, dps, now), tracker)
  {
    if dps != [] {
      var before := IngestAll(s, tracker, dps[..|dps| - 1], now);
      IngestAllOnlyChannel(s, tracker, dps[..|dps| - 1], now);
      IngestOnlyChannel(before, tracker, dps[|dps| - 1], now);
    }
  }

  /** Ingesting a batch extended by one point ingests that point last. */
  lemma IngestAllSnoc(s: SensorState, tracker: TrackerType, dps: seq<DataPoint>, dp: DataPoint, now: int)
    ensures IngestAll(s, tracker, dps + [dp], now) == Ingest(IngestAll(s, tracker, dps, now), tracker, dp, now)
  {
    assert (dps + [dp])[..|dps|] == dps;
  }

  /** Batches that end in the same state still do after one more point. */
  lemma IngestAllSameStep(s: SensorState, tracker: TrackerType, xs: seq<DataPoint>, ys: seq<DataPoint>, dp: DataPoint, now: int)
    requires IngestAll(s, tracker, xs, now) == IngestAll(s, tracker, ys, now)
    ensures IngestAll(s, tracker, xs + [dp], now) == IngestAll(s, tracker, ys + [dp], now)
  {
    IngestAllSnoc(s, tracker, xs, dp, now);
    IngestAllSnoc(s, tracker, ys, dp, now);
  }

  /** Splitting off the last element of `after` in a batch with and without a point in the middle. */
  lemma SplitLast<T>(before: seq<T>, mid: seq<T>, after: seq<T>)
    requires after != []
    ensures before + mid + after == (before + mid + after[..|after| - 1]) + [after[|after| - 1]]
  {
    assert after == after[..|after| - 1] + [after[|after| - 1]];
  }

  /** A data point that throws does not stop the ones after it, and leaves no trace. */
  lemma {:induction false} UnreadablePointSkipped(
    s: SensorState, tracker: TrackerType, before: seq<DataPoint>, bad: DataPoint, after: seq<DataPoint>, now: int)
    requires !Readable(tracker, bad)
    ensures IngestAll(s, tracker, before + [bad] + after, now) == IngestAll(s, tracker, before + after, now)
  {
    if after == [] {
      assert before + [bad] + after == before + [bad];
      assert before + after == before;
      IngestAllSnoc(s, tracker, before, bad, now);
    } else {
      var init, last := after[..|after| - 1], after[|after| - 1];
      UnreadablePointSkipped(s, tracker, before, bad, init, now);
      SplitLast(before, [bad], after);
      SplitLast(before, [], after);
      assert before + [] == before;
      IngestAllSameStep(s, tracker, before + [bad] + init, before + init, last, now);
    }
  }

  /** The sample of PPG channel `key` in a readable PPG point, as a double. */
  function PpgSample(dp: DataPoint, key: ValueKey): real
    requires key in Channel(PpgContinuous)
    requires Readable(PpgContinuous, dp)
  {
    dp[key].i as real
  }

  /**
   * `held` followed by the values of `key` in the readable PPG points of a
   * batch, as doubles, in arrival order.
   */
  function PpgHistory(held: seq<real>, dps: seq<DataPoint>, key: ValueKey): (r: seq<real>)
    requires key in Channel(PpgContinuous)
    ensures |held| <= |r| <= |held| + |dps|
    ensures r[..|held|] == held
  {
    if dps == [] then held
    else
      var last := dps[|dps| - 1];
      PpgHistory(held, dps[..|dps| - 1], key) + if Readable(PpgContinuous, last) then [PpgSample(last, key)] else []
  }

  /** `held` followed by the (arrival time, bpm) pairs of the readable heart-rate points of a batch. */
  function HrHistory(held: seq<(int, real)>, dps: seq<DataPoint>, now: int): (r: seq<(int, real)>)
    ensures |held| <= |r| <= |held| + |dps|
    ensures r[..|held|] == held
  {
    if dps == [] then held
    else
      var last := dps[|dps| - 1];
      HrHistory(held, dps[..|dps| - 1], now) + if Readable(HeartRateContinuous, last) then [(now, last[HeartRate].i as real)] else []
  }

  /** The PPG window that buffers the channel `key`. */
  function PpgWindow(s: SensorState, key: ValueKey): seq<real>
    requires key in Channel(PpgContinuous)
  {
    match key
    case PpgGreen => s.green
    case PpgIr => s.ir
    case PpgRed => s.red
  }

  /** A readable PPG point pushes its sample of `key` onto that channel's window. */
  lemma PpgWindowPushed(before: SensorState, dp: DataPoint, now: int, key: ValueKey)
    requires key in Channel(PpgContinuous)
    requires Readable(PpgContinuous, dp)
    ensures PpgWindow(Ingest(before, PpgContinuous, dp, now), key)
         == Push(PpgWindow(before, key), PpgSample(dp, key), PPG_WINDOW_SAMPLES)
  {
    assert dp[PpgGreen].IntValue? && dp[PpgIr].IntValue? && dp[PpgRed].IntValue?;
    var r := Ingest(before, PpgContinuous, dp, now);
    match key
    case PpgGreen => assert r.green == Push(before.green, dp[PpgGreen].i as real, PPG_WINDOW_SAMPLES);
    case PpgIr => assert r.ir == Push(before.ir, dp[PpgIr].i as real, PPG_WINDOW_SAMPLES);
    case PpgRed => assert r.red == Push(before.red, dp[PpgRed].i as real, PPG_WINDOW_SAMPLES);
  }

  /** One readable PPG point extends the sample sequence its channel's window keeps the end of. */
  lemma PpgStepWindow(before: SensorState, dp: DataPoint, now: int, key: ValueKey, held: seq<real>)
    requires key in Channel(PpgContinuous)
    requires Readable(PpgContinuous, dp)
    requires PpgWindow(before, key) == Last(held, PPG_WINDOW_SAMPLES)
    ensures PpgWindow(Ingest(before, PpgContinuous, dp, now), key) == Last(held + [PpgSample(dp, key)], PPG_WINDOW_SAMPLES)
  {
    PpgWindowPushed(before, dp, now, key);
    PushAfterLast(held, PpgSample(dp, key), PPG_WINDOW_SAMPLES);
  }

  /**
   * After a PPG batch each PPG window is the last (at most 125) of everything
   * it held followed by the batch's samples of its channel, in arrival order.
   */
  lemma {:induction false} PpgWindowHoldsLastSamples(s: SensorState, dps: seq<DataPoint>, now: int, key: ValueKey)
    requires Valid(s)
    requires key in Channel(PpgContinuous)
    ensures PpgWindow(IngestAll(s, PpgContinuous, dps, now), key)
         == Last(PpgHistory(PpgWindow(s, key), dps, key), PPG_WINDOW_SAMPLES)
  {
    if dps != [] {
      var init := dps[..|dps| - 1];
      PpgWindowHoldsLastSamples(s, init, now, key);
      if Readable(PpgContinuous, dps[|dps| - 1]) {
        PpgStepWindow(IngestAll(s, PpgContinuous, init, now), dps[|dps| - 1], now, key, PpgHistory(PpgWindow(s, key), init, key));
      }
    }
  }

  /**
   * After a heart-rate batch the heart-rate window is the last (at most 120)
   * of everything it held plus the batch's readings, in arrival order.
   */
  lemma {:induction false} HrWindowHoldsLastSamples(s: SensorState, dps: seq<DataPoint>, now: int)
    requires Valid(s)
    ensures IngestAll(s, HeartRateContinuous, dps, now).hr == Last(HrHistory(s.hr, dps, now), HR_WINDOW_SECONDS)
  {
    if dps != [] {
      var init, last := dps[..|dps| - 1], dps[|dps| - 1];
      HrWindowHoldsLastSamples(s, init, now);
      if Readable(HeartRateContinuous, last) {
        PushAfterLast(HrHistory(s.hr, init, now), (now, last[HeartRate].i as real), HR_WINDOW_SECONDS);
      }
    }
  }
}
