/**
 * The phone's per-field averaging of a drained buffer of records: every
 * field is averaged over the records that carry it.
 */
module PhoneAveraging {
  import opened Wrappers
  import opened HealthData
  import opened Numeric

  /** `mapNotNull`: the present values, in order. */
  function PresentValues<T>(xs: seq<Option<T>>): (r: seq<T>)
    ensures |r| <= |xs|
    ensures forall j :: 0 <= j < |r| ==> Some(r[j]) in xs
    ensures forall i :: 0 <= i < |xs| && xs[i].Some? ==> xs[i].value in r
    ensures r == [] <==> forall i :: 0 <= i < |xs| ==> xs[i].None?
  {
    if xs == [] then []
    else
      var rest := PresentValues(xs[1..]);
      assert forall i :: 1 <= i < |xs| ==> xs[i] == xs[1..][i - 1];
      assert forall j :: 0 <= j < |rest| ==> Some(rest[j]) in xs by {
        forall j | 0 <= j < |rest|
          ensures Some(rest[j]) in xs
        {
          var k :| 0 <= k < |xs[1..]| && xs[1..][k] == Some(rest[j]);
          assert xs[k + 1] == Some(rest[j]);
        }
      }
      (if xs[0].Some? then [xs[0].value] else []) + PresentValues(xs[1..])
  }

  /** How many entries of a column are present. */
  function CountPresent<T>(xs: seq<Option<T>>): nat
  {
    if xs == [] then 0 else (if xs[0].Some? then 1 else 0) + CountPresent(xs[1..])
  }

  /** The sum of the present entries of a floating-point column. */
  function SumPresent(xs: seq<Option<real>>): real
  {
    if xs == [] then 0.0 else (if xs[0].Some? then xs[0].value else 0.0) + SumPresent(xs[1..])
  }

  /** The sum of the present entries of an integer column. */
  function SumPresentInt(xs: seq<Option<int>>): int
  {
    if xs == [] then 0 else (if xs[0].Some? then xs[0].value else 0) + SumPresentInt(xs[1..])
  }

  /** `mapNotNull` keeps as many values as the column has present entries. */
  lemma {:induction false} PresentValuesCount<T>(xs: seq<Option<T>>)
    ensures |PresentValues(xs)| == CountPresent(xs)
  {
    if xs != [] {
      PresentValuesCount(xs[1..]);
    }
  }

  /**
   * `mapNotNull` keeps every present entry in column order: the present entry
   * at `i` lands at the position counting the present entries before it.
   */
  lemma {:induction false} PresentValuesInOrder<T>(xs: seq<Option<T>>)
    ensures forall i :: 0 <= i < |xs| && xs[i].Some? ==>
      CountPresent(xs[..i]) < |PresentValues(xs)| && PresentValues(xs)[CountPresent(xs[..i])] == xs[i].value
  {
    if xs != [] {
      var rest := xs[1..];
      PresentValuesInOrder(rest);
      var tail := PresentValues(rest);
      var head := if xs[0].Some? then [xs[0].value] else [];
      var r := PresentValues(xs);
      assert r == head + tail;
      forall i | 0 <= i < |xs| && xs[i].Some?
        ensures CountPresent(xs[..i]) < |r| && r[CountPresent(xs[..i])] == xs[i].value
      {
        if i == 0 {
          assert xs[..0] == [];
        } else {
          var pre := xs[..i];
          assert pre[1..] == rest[..i - 1];
          assert CountPresent(pre) == |head| + CountPresent(rest[..i - 1]);
          assert rest[i - 1] == xs[i];
          var k := CountPresent(rest[..i - 1]);
          assert r[|head| + k] == tail[k];
        }
      }
    }
  }

  /** The present floating-point values sum to the column's sum of present entries. */
  lemma {:induction false} SumOfPresentValues(xs: seq<Option<real>>)
    ensures Sum(PresentValues(xs)) == SumPresent(xs)
  {
    if xs != [] {
      SumOfPresentValues(xs[1..]);
      var tail := PresentValues(xs[1..]);
      if xs[0].Some? {
        var r := [xs[0].value] + tail;
        assert PresentValues(xs) == r;
        assert r[1..] == tail;
      } else {
        assert PresentValues(xs) == tail;
      }
    }
  }

  /** The present integer values, widened, sum to the column's sum of present entries. */
  lemma {:induction false} SumOfPresentInts(xs: seq<Option<int>>)
    ensures Sum(AsReals(PresentValues(xs))) == SumPresentInt(xs) as real
  {
    if xs != [] {
      SumOfPresentInts(xs[1..]);
      var tail := PresentValues(xs[1..]);
      if xs[0].Some? {
        var r := [xs[0].value] + tail;
        assert PresentValues(xs) == r;
        assert AsReals(r)[1..] == AsReals(tail);
      } else {
        assert PresentValues(xs) == tail;
      }
    }
  }

  /** `average().takeIf { !it.isNaN() }`: the mean, or null for no values. */
  function AverageOf(xs: seq<real>): (r: Option<real>)
    ensures r.None? <==> xs == []
  {
    if xs == [] then None else Some(Mean(xs))
  }

  /** The averaged heart rate: the mean truncated to an int, null when no record has one. */
  function AverageHr(hrs: seq<Option<int>>): (r: Option<int>)
    ensures r.None? <==> forall i :: 0 <= i < |hrs| ==> hrs[i].None?
  {
    match AverageOf(AsReals(PresentValues(hrs)))
    case None => None
    case Some(m) => Some(TruncToInt(m))
  }

  /**
   * A PPG or accelerometer average: the mean truncated to an int, with 0 read
   * as null. With no values the mean is NaN, which converts to 0 and so to null.
   */
  function AverageNonZero(vals: seq<Option<int>>): (r: Option<int>)
    ensures r.Some? ==> r.value != 0
    ensures (forall i :: 0 <= i < |vals| ==> vals[i].None?) ==> r.None?
  {
    var present := PresentValues(vals);
    var t := if present == [] then 0 else TruncToInt(Mean(AsReals(present)));
    if t == 0 then None else Some(t)
  }

  /** A floating-point average: the mean, null when no record has the field. */
  function AverageReal(vals: seq<Option<real>>): (r: Option<real>)
    ensures r.None? <==> forall i :: 0 <= i < |vals| ==> vals[i].None?
  {
    AverageOf(PresentValues(vals))
  }

  /**
   * A floating-point average is the sum of the present entries over their
   * count, each present entry counted as often as it occurs; null when none is present.
   */
  lemma AverageRealIsPresentMean(vals: seq<Option<real>>)
    ensures AverageReal(vals).None? <==> CountPresent(vals) == 0
    ensures AverageReal(vals).Some? ==> AverageReal(vals).value == SumPresent(vals) / (CountPresent(vals) as real)
  {
    PresentValuesCount(vals);
    SumOfPresentValues(vals);
  }

  /** The heart-rate average is the truncated mean of the present entries; null when none is present. */
  lemma AverageHrIsPresentMean(vals: seq<Option<int>>)
    ensures AverageHr(vals).None? <==> CountPresent(vals) == 0
    ensures AverageHr(vals).Some? ==>
      AverageHr(vals).value == TruncToInt((SumPresentInt(vals) as real) / (CountPresent(vals) as real))
  {
    PresentValuesCount(vals);
    SumOfPresentInts(vals);
  }

  /**
   * A PPG or accelerometer average is the truncated mean of the present
   * entries (0 when none is present), with 0 read as null.
   */
  lemma AverageNonZeroIsPresentMean(vals: seq<Option<int>>)
    ensures var t := if CountPresent(vals) == 0 then 0
                     else TruncToInt((SumPresentInt(vals) as real) / (CountPresent(vals) as real));
      AverageNonZero(vals) == if t == 0 then None else Some(t)
  {
    PresentValuesCount(vals);
    SumOfPresentInts(vals);
  }

  /** Duplicates count: the heart rates 60, 60 and 90 average to 70, not to 75. */
  lemma DuplicatesWeighAverage()
    ensures AverageHr([Some(60), Some(60), None, Some(90)]) == Some(70)
  {
    var vals := [Some(60), Some(60), None, Some(90)];
    AverageHrIsPresentMean(vals);
    assert CountPresent(vals) == 3 && SumPresentInt(vals) == 210;
    TruncOfInt(70);
  }

  /** The column of one field across the buffered records. */
  function Column<T>(records: seq<HealthDataRecord>, field: HealthDataRecord -> Option<T>): (c: seq<Option<T>>)
    ensures |c| == |records|
    ensures forall i :: 0 <= i < |records| ==> c[i] == field(records[i])
  {
    seq(|records|, i requires 0 <= i < |records| => field(records[i]))
  }

  /**
   * The averaged record of `processAndSaveBufferedData`, stamped `now`. The
   * IBI list is the last record's, or empty; respiration rate is not carried.
   */
  function Averaged(records: seq<HealthDataRecord>, now: int): (r: HealthDataRecord)
    ensures r.timestamp == now && r.respirationRate.None?
    ensures r.ibi == Some(if records == [] then [] else records[|records| - 1].ibi.GetOr([]))
    ensures r.ppgGreen != Some(0) && r.ppgRed != Some(0) && r.ppgIr != Some(0)
    ensures r.accX != Some(0) && r.accY != Some(0) && r.accZ != Some(0)
  {
    HealthDataRecord(
      timestamp := now,
      hr := AverageHr(Column(records, (x: HealthDataRecord) => x.hr)),
      spo2 := AverageReal(Column(records, (x: HealthDataRecord) => x.spo2)),
      skinTemp := AverageReal(Column(records, (x: HealthDataRecord) => x.skinTemp)),
      eda := AverageReal(Column(records, (x: HealthDataRecord) => x.eda)),
      ecg := AverageReal(Column(records, (x: HealthDataRecord) => x.ecg)),
      bvp := AverageReal(Column(records, (x: HealthDataRecord) => x.bvp)),
      ppgGreen := AverageNonZero(Column(records, (x: HealthDataRecord) => x.ppgGreen)),
      ppgRed := AverageNonZero(Column(records, (x: HealthDataRecord) => x.ppgRed)),
      ppgIr := AverageNonZero(Column(records, (x: HealthDataRecord) => x.ppgIr)),
      accX := AverageNonZero(Column(records, (x: HealthDataRecord) => x.accX)),
      accY := AverageNonZero(Column(records, (x: HealthDataRecord) => x.accY)),
      accZ := AverageNonZero(Column(records, (x: HealthDataRecord) => x.accZ)),
      ibi := Some(if records == [] then [] else records[|records| - 1].ibi.GetOr([])),
      respirationRate := None)
  }

  /** A floating-point column averages to null exactly when no record carries the field. */
  lemma RealColumnNullIffAbsent(records: seq<HealthDataRecord>, field: HealthDataRecord -> Option<real>)
    ensures AverageReal(Column(records, field)).None? <==> forall i :: 0 <= i < |records| ==> field(records[i]).None?
  {
    var c := Column(records, field);
    assert forall i :: 0 <= i < |records| ==> c[i] == field(records[i]);
  }

  /**
   * The averaged heart rate, SpO2 and skin temperature are each null exactly
   * when no buffered record carries that field.
   */
  lemma AveragedVitalsNullIffAbsent(records: seq<HealthDataRecord>, now: int)
    ensures var r := Averaged(records, now);
      && (r.hr.None? <==> forall i :: 0 <= i < |records| ==> records[i].hr.None?)
      && (r.spo2.None? <==> forall i :: 0 <= i < |records| ==> records[i].spo2.None?)
      && (r.skinTemp.None? <==> forall i :: 0 <= i < |records| ==> records[i].skinTemp.None?)
  {
    var hr := Column(records, (x: HealthDataRecord) => x.hr);
    assert forall i :: 0 <= i < |records| ==> hr[i] == records[i].hr;
    RealColumnNullIffAbsent(records, (x: HealthDataRecord) => x.spo2);
    RealColumnNullIffAbsent(records, (x: HealthDataRecord) => x.skinTemp);
  }

  /**
   * The averaged EDA, ECG and blood volume pulse are each null exactly when no
   * buffered record carries that field.
   */
  lemma AveragedSignalsNullIffAbsent(records: seq<HealthDataRecord>, now: int)
    ensures var r := Averaged(records, now);
      && (r.eda.None? <==> forall i :: 0 <= i < |records| ==> records[i].eda.None?)
      && (r.ecg.None? <==> forall i :: 0 <= i < |records| ==> records[i].ecg.None?)
      && (r.bvp.None? <==> forall i :: 0 <= i < |records| ==> records[i].bvp.None?)
  {
    RealColumnNullIffAbsent(records, (x: HealthDataRecord) => x.eda);
    RealColumnNullIffAbsent(records, (x: HealthDataRecord) => x.ecg);
    RealColumnNullIffAbsent(records, (x: HealthDataRecord) => x.bvp);
  }

  /** Every present value lies in [lo, hi], so the mean does too. */
  lemma PresentMeanWithin(vals: seq<Option<real>>, lo: real, hi: real)
    requires forall i :: 0 <= i < |vals| ==> vals[i].Some? ==> lo <= vals[i].value <= hi
    ensures AverageReal(vals).Some? ==> lo <= AverageReal(vals).value <= hi
  {
    var present := PresentValues(vals);
    if present != [] {
      forall j | 0 <= j < |present|
        ensures lo <= present[j] <= hi
      {
        assert present[j] in present;
        var i :| 0 <= i < |vals| && vals[i] == Some(present[j]);
      }
      MeanBounds(present, lo, hi);
    }
  }

  /** The real mean of the present ints lies within their integer bounds. */
  lemma PresentIntMeanWithin(vals: seq<Option<int>>, lo: int, hi: int)
    requires forall i :: 0 <= i < |vals| ==> vals[i].Some? ==> lo <= vals[i].value <= hi
    requires PresentValues(vals) != []
    ensures lo as real <= Mean(AsReals(PresentValues(vals))) <= hi as real
  {
    var present := PresentValues(vals);
    var xs := AsReals(present);
    forall j | 0 <= j < |xs|
      ensures lo as real <= xs[j] <= hi as real
    {
      assert present[j] in present;
      var i :| 0 <= i < |vals| && vals[i] == Some(present[j]);
    }
    MeanBounds(xs, lo as real, hi as real);
  }

  /**
   * An averaged integer field (heart rate, PPG, accelerometer) stays within
   * any integer bounds of the values it averages.
   */
  lemma AveragedIntWithin(vals: seq<Option<int>>, lo: int, hi: int)
    requires forall i :: 0 <= i < |vals| ==> vals[i].Some? ==> lo <= vals[i].value <= hi
    ensures AverageHr(vals).Some? ==> lo <= AverageHr(vals).value <= hi
    ensures AverageNonZero(vals).Some? ==> lo <= AverageNonZero(vals).value <= hi
  {
    var present := PresentValues(vals);
    if present != [] {
      PresentIntMeanWithin(vals, lo, hi);
      TruncWithin(Mean(AsReals(present)), lo, hi);
    }
  }

  /** The mean of copies of one value is that value. */
  lemma MeanOfCopies(xs: seq<real>, v: real)
    requires |xs| > 0
    requires forall i :: 0 <= i < |xs| ==> xs[i] == v
    ensures Mean(xs) == v
  {
    MeanBounds(xs, v, v);
  }

  /** The values present in a column where every record carries `v` are copies of `v`. */
  lemma PresentOfCopies<T>(vals: seq<Option<T>>, v: T)
    requires |vals| > 0
    requires forall i :: 0 <= i < |vals| ==> vals[i] == Some(v)
    ensures PresentValues(vals) != []
    ensures forall j :: 0 <= j < |PresentValues(vals)| ==> PresentValues(vals)[j] == v
  {
    assert vals[0] == Some(v);
  }

  /** A non-zero integer value survives the zero-as-null rule; 0 becomes null. */
  function NonZero(x: Option<int>): (r: Option<int>)
    ensures r.Some? <==> x.Some? && x.value != 0
    ensures r.Some? ==> r == x
  {
    if x == Some(0) then None else x
  }

  /** Averaging an integer field that every record carries as `v` gives `v` back. */
  lemma AveragedIntOfCopies(vals: seq<Option<int>>, v: int)
    requires |vals| > 0
    requires forall i :: 0 <= i < |vals| ==> vals[i] == Some(v)
    ensures AverageHr(vals) == Some(v)
    ensures AverageNonZero(vals) == NonZero(Some(v))
  {
    PresentOfCopies(vals, v);
    var xs := AsReals(PresentValues(vals));
    MeanOfCopies(xs, v as real);
    TruncOfInt(v);
  }

  /** Averaging a floating-point field that every record carries as `v` gives `v` back. */
  lemma AveragedRealOfCopies(vals: seq<Option<real>>, v: real)
    requires |vals| > 0
    requires forall i :: 0 <= i < |vals| ==> vals[i] == Some(v)
    ensures AverageReal(vals) == Some(v)
  {
    PresentOfCopies(vals, v);
    MeanOfCopies(PresentValues(vals), v);
  }

  /** A buffer of copies of one record carrying every integer field averages each back to its value. */
  lemma AveragedIntFieldsOfCopies(records: seq<HealthDataRecord>, rec: HealthDataRecord, now: int)
    requires |records| > 0
    requires forall i :: 0 <= i < |records| ==> records[i] == rec
    requires rec.hr.Some? && rec.ppgGreen.Some? && rec.ppgRed.Some? && rec.ppgIr.Some?
    requires rec.accX.Some? && rec.accY.Some? && rec.accZ.Some?
    ensures var r := Averaged(records, now);
      && r.hr == rec.hr
      && r.ppgGreen == NonZero(rec.ppgGreen) && r.ppgRed == NonZero(rec.ppgRed) && r.ppgIr == NonZero(rec.ppgIr)
      && r.accX == NonZero(rec.accX) && r.accY == NonZero(rec.accY) && r.accZ == NonZero(rec.accZ)
  {
    AveragedIntOfCopies(Column(records, (x: HealthDataRecord) => x.hr), rec.hr.value);
    AveragedIntOfCopies(Column(records, (x: HealthDataRecord) => x.ppgGreen), rec.ppgGreen.value);
    AveragedIntOfCopies(Column(records, (x: HealthDataRecord) => x.ppgRed), rec.ppgRed.value);
    AveragedIntOfCopies(Column(records, (x: HealthDataRecord) => x.ppgIr), rec.ppgIr.value);
    AveragedIntOfCopies(Column(records, (x: HealthDataRecord) => x.accX), rec.accX.value);
    AveragedIntOfCopies(Column(records, (x: HealthDataRecord) => x.accY), rec.accY.value);
    AveragedIntOfCopies(Column(records, (x: HealthDataRecord) => x.accZ), rec.accZ.value);
  }

  /** A buffer of copies of one record carrying every floating-point field averages each back to its value. */
  lemma AveragedRealFieldsOfCopies(records: seq<HealthDataRecord>, rec: HealthDataRecord, now: int)
    requires |records| > 0
    requires forall i :: 0 <= i < |records| ==> records[i] == rec
    requires rec.spo2.Some? && rec.skinTemp.Some? && rec.eda.Some? && rec.ecg.Some? && rec.bvp.Some?
    ensures var r := Averaged(records, now);
      r.spo2 == rec.spo2 && r.skinTemp == rec.skinTemp && r.eda == rec.eda && r.ecg == rec.ecg && r.bvp == rec.bvp
  {
    AveragedRealOfCopies(Column(records, (x: HealthDataRecord) => x.spo2), rec.spo2.value);
    AveragedRealOfCopies(Column(records, (x: HealthDataRecord) => x.skinTemp), rec.skinTemp.value);
    AveragedRealOfCopies(Column(records, (x: HealthDataRecord) => x.eda), rec.eda.value);
    AveragedRealOfCopies(Column(records, (x: HealthDataRecord) => x.ecg), rec.ecg.value);
    AveragedRealOfCopies(Column(records, (x: HealthDataRecord) => x.bvp), rec.bvp.value);
  }

  /**
   * A buffer of copies of one fully populated record averages back to that
   * record, up to the timestamp, the zero-as-null rule and the dropped
   * respiration rate.
   */
  lemma AveragingCopiesIsIdentity(records: seq<HealthDataRecord>, rec: HealthDataRecord, now: int)
    requires |records| > 0
    requires forall i :: 0 <= i < |records| ==> records[i] == rec
    requires rec.hr.Some? && rec.spo2.Some? && rec.skinTemp.Some? && rec.eda.Some? && rec.ecg.Some? && rec.bvp.Some?
    requires rec.ppgGreen.Some? && rec.ppgRed.Some? && rec.ppgIr.Some?
    requires rec.accX.Some? && rec.accY.Some? && rec.accZ.Some?
    ensures Averaged(records, now) == rec.(
      timestamp := now,
      ppgGreen := NonZero(rec.ppgGreen), ppgRed := NonZero(rec.ppgRed), ppgIr := NonZero(rec.ppgIr),
      accX := NonZero(rec.accX), accY := NonZero(rec.accY), accZ := NonZero(rec.accZ),
      ibi := Some(rec.ibi.GetOr([])),
      respirationRate := None)
  {
    AveragedIntFieldsOfCopies(records, rec, now);
    AveragedRealFieldsOfCopies(records, rec, now);
    assert records[|records| - 1] == rec;
  }
}
