/**
 * The derived-metric calculator of the watch: linear detrending, blood-volume
 * pulse, SpO2 by ratio of ratios, and respiration rate by a spectral peak search.
 * The FFT and the square root are inputs; detrending is exact least squares
 * over the reals.
 */
module SignalProcessing {
  import opened Wrappers
  import opened Numeric
  import opened TrackingConfig

  // ---------------------------------------------------------------------------
  // Detrending by ordinary least squares against the sample index
  // ---------------------------------------------------------------------------

  /** The regressors 0, 1, ..., n-1. */
  function Indices(n: nat): (r: seq<real>)
    ensures |r| == n
    ensures forall i :: 0 <= i < n ==> r[i] == i as real
  {
    seq(n, i requires 0 <= i < n => i as real)
  }

  /** Deviations from the mean. */
  function Centered(xs: seq<real>): (r: seq<real>)
    requires |xs| > 0
    ensures |r| == |xs|
    ensures forall i :: 0 <= i < |xs| ==> r[i] == xs[i] - Mean(xs)
  {
    var m := Mean(xs);
    seq(|xs|, i requires 0 <= i < |xs| => xs[i] - m)
  }

  function Products(xs: seq<real>, ys: seq<real>): (r: seq<real>)
    requires |xs| == |ys|
    ensures |r| == |xs|
    ensures forall i :: 0 <= i < |xs| ==> r[i] == xs[i] * ys[i]
  {
    seq(|xs|, i requires 0 <= i < |xs| => xs[i] * ys[i])
  }

  /** The centred sum of squares of the indices of an n-sample series. */
  function Sxx(n: nat): real
    requires n > 0
  {
    Sum(Squares(Centered(Indices(n))))
  }

  /** The centred sum of cross products of indices and values. */
  function Sxy(ys: seq<real>): real
    requires |ys| > 0
  {
    Sum(Products(Centered(Indices(|ys|)), Centered(ys)))
  }

  /** With two or more samples the indices are not all equal, so the slope is defined. */
  lemma SxxPositive(n: nat)
    requires n >= 2
    ensures Sxx(n) > 0.0
  {
    var c := Centered(Indices(n));
    SquaresNonnegative(c);
    var k := NonzeroDeviation(n);
    SquareFacts(c[k]);
    SumAtLeastTerm(Squares(c), k);
  }

  /** Indices 0 and n-1 cannot both sit at the mean. */
  lemma NonzeroDeviation(n: nat) returns (k: nat)
    requires n >= 2
    ensures k < n && Centered(Indices(n))[k] != 0.0
  {
    var xs := Indices(n);
    var c := Centered(xs);
    assert c[0] == 0.0 - Mean(xs);
    assert c[n - 1] == (n - 1) as real - Mean(xs);
    k := if c[0] != 0.0 then 0 else n - 1;
  }

  datatype Line = Line(slope: real, intercept: real)

  /**
   * The fitted line; absent (NaN slope and intercept in the source) when the
   * series has fewer than two samples.
   */
  function Regression(ys: seq<real>): (r: Option<Line>)
    ensures r.None? <==> |ys| < 2
  {
    if |ys| < 2 then None
    else
      SxxPositive(|ys|);
      var slope := Sxy(ys) / Sxx(|ys|);
      Some(Line(slope, Mean(ys) - slope * Mean(Indices(|ys|))))
  }

  /** `detrend`: subtract the fitted line, or return the input when the fit is degenerate. */
  function Detrend(ys: seq<real>): (r: seq<real>)
    ensures |r| == |ys|
    ensures |ys| < 2 ==> r == ys
  {
    match Regression(ys)
    case None => ys
    case Some(line) =>
      seq(|ys|, i requires 0 <= i < |ys| => ys[i] - (line.slope * (i as real) + line.intercept))
  }

  /** The mean of an affine image of the indices is the affine image of their mean. */
  lemma MeanOfLine(ys: seq<real>, m: real, c: real)
    requires |ys| >= 1
    requires forall i :: 0 <= i < |ys| ==> ys[i] == m * (i as real) + c
    ensures Mean(ys) == m * Mean(Indices(|ys|)) + c
  {
    var nr := |ys| as real;
    var xs := Indices(|ys|);
    SumAffine(xs, ys, m, c);
    var mx := Mean(xs);
    assert Sum(xs) == mx * nr;
    assert Sum(ys) == nr * (m * mx + c);
  }

  /** On a linear series the cross products are the slope times the squares. */
  lemma SxyOfLine(ys: seq<real>, m: real, c: real)
    requires |ys| >= 1
    requires forall i :: 0 <= i < |ys| ==> ys[i] == m * (i as real) + c
    ensures Sxy(ys) == m * Sxx(|ys|)
  {
    var n := |ys|;
    MeanOfLine(ys, m, c);
    var cx, cy := Centered(Indices(n)), Centered(ys);
    var sxx, sxy := Squares(cx), Products(cx, cy);
    forall i | 0 <= i < n
      ensures sxy[i] == m * sxx[i] + 0.0
    {
      calc {
        sxy[i];
        cx[i] * cy[i];
        { assert cy[i] == m * cx[i]; }
        cx[i] * (m * cx[i]);
        m * (cx[i] * cx[i]);
        m * Square(cx[i]);
      }
    }
    SumAffine(sxx, sxy, m, 0.0);
  }

  /** Least squares recovers the line a linear series was drawn from. */
  lemma RegressionOfLine(ys: seq<real>, m: real, c: real)
    requires |ys| >= 2
    requires forall i :: 0 <= i < |ys| ==> ys[i] == m * (i as real) + c
    ensures Regression(ys) == Some(Line(m, c))
  {
    var sxx := Sxx(|ys|);
    SxyOfLine(ys, m, c);
    SxxPositive(|ys|);
    DivideProduct(m, sxx);
    var slope := Sxy(ys) / sxx;
    assert slope == m;
    MeanOfLine(ys, m, c);
    var intercept := Mean(ys) - slope * Mean(Indices(|ys|));
    assert intercept == c;
    assert Regression(ys).value.slope == slope;
    assert Regression(ys).value.intercept == intercept;
  }

  /** Detrending a perfectly linear series leaves nothing: every residual is zero. */
  lemma DetrendOfLine(ys: seq<real>, m: real, c: real)
    requires |ys| >= 2
    requires forall i :: 0 <= i < |ys| ==> ys[i] == m * (i as real) + c
    ensures forall i :: 0 <= i < |ys| ==> Detrend(ys)[i] == 0.0
  {
    RegressionOfLine(ys, m, c);
  }

  // ---------------------------------------------------------------------------
  // SpO2 by ratio of ratios
  // ---------------------------------------------------------------------------

  /** `sumOf { it * it } / size` of a non-empty signal. */
  function MeanSquare(data: seq<real>): (r: real)
    requires |data| > 0
    ensures r >= 0.0
  {
    SquaresNonnegative(data);
    SumNonnegative(Squares(data));
    Sum(Squares(data)) / (|data| as real)
  }

  /** `rms`: 0 for an empty signal, otherwise the square root of the mean square. */
  function Rms(data: seq<real>, sqrt: real -> real): (r: real)
    ensures |data| == 0 ==> r == 0.0
    ensures |data| > 0 ==> r == sqrt(MeanSquare(data))
  {
    if |data| == 0 then 0.0 else sqrt(MeanSquare(data))
  }

  /** What the source needs of its square root: it is zero exactly at zero. */
  ghost predicate ZeroOnlyAtZero(sqrt: real -> real)
  {
    forall x :: x >= 0.0 ==> (sqrt(x) == 0.0 <==> x == 0.0)
  }

  /** `coerceIn(lo, hi)`. */
  function Clamp(x: real, lo: real, hi: real): (r: real)
    requires lo <= hi
    ensures lo <= r <= hi
    ensures lo <= x <= hi ==> r == x
    ensures x < lo ==> r == lo
    ensures x > hi ==> r == hi
  {
    if x < lo then lo else if x > hi then hi else x
  }

  /** The calibration line SpO2 = 110 - 25 R, clamped to a percentage. */
  function Spo2FromRatio(ratio: real): real
  {
    Clamp(110.0 - 25.0 * ratio, 0.0, 100.0)
  }

  /**
   * `calculateSpo2`. Empty channels make the DC average NaN, which the final
   * NaN check turns into null; a zero DC or zero infrared RMS is refused
   * before dividing.
   */
  function CalculateSpo2(red: seq<real>, ir: seq<real>, sqrt: real -> real): (r: Option<real>)
    ensures r.None? <==>
      (|red| == 0 || |ir| == 0 || Mean(red) == 0.0 || Mean(ir) == 0.0 || Rms(Detrend(ir), sqrt) == 0.0)
    ensures r.Some? ==> 0.0 <= r.value <= 100.0
    ensures r.Some? ==>
      r.value == Spo2FromRatio((Rms(Detrend(red), sqrt) / Mean(red)) / (Rms(Detrend(ir), sqrt) / Mean(ir)))
  {
    if |red| == 0 || |ir| == 0 then None
    else
      var redRms := Rms(Detrend(red), sqrt);
      var irRms := Rms(Detrend(ir), sqrt);
      var redDC := Mean(red);
      var irDC := Mean(ir);
      if redDC == 0.0 || irDC == 0.0 || irRms == 0.0 then None
      else Some(Spo2FromRatio((redRms / redDC) / (irRms / irDC)))
  }

  /** A larger ratio of ratios never gives a higher saturation. */
  lemma Spo2Antitone(r1: real, r2: real)
    requires r1 <= r2
    ensures Spo2FromRatio(r1) >= Spo2FromRatio(r2)
  {
  }

  /** Inside the calibrated range the clamp is inactive. */
  lemma Spo2Unclamped(ratio: real)
    requires 0.4 <= ratio <= 4.4
    ensures Spo2FromRatio(ratio) == 110.0 - 25.0 * ratio
  {
  }

  /** A non-empty signal has zero mean square exactly when every sample is zero. */
  lemma MeanSquareZeroIffFlat(data: seq<real>)
    requires |data| > 0
    ensures MeanSquare(data) == 0.0 <==> forall i :: 0 <= i < |data| ==> data[i] == 0.0
  {
    var sq := Squares(data);
    SquaresNonnegative(data);
    assert Sum(sq) == MeanSquare(data) * (|data| as real);
    if MeanSquare(data) == 0.0 {
      forall i | 0 <= i < |data|
        ensures data[i] == 0.0
      {
        SumAtLeastTerm(sq, i);
        SquareFacts(data[i]);
      }
    } else if forall i :: 0 <= i < |data| ==> data[i] == 0.0 {
      SumAffine(sq, sq, 0.0, 0.0);
      assert false;
    }
  }

  /** With a square root that vanishes only at zero, the RMS is zero exactly for an all-zero signal. */
  lemma RmsZeroIffFlat(data: seq<real>, sqrt: real -> real)
    requires ZeroOnlyAtZero(sqrt)
    ensures Rms(data, sqrt) == 0.0 <==> forall i :: 0 <= i < |data| ==> data[i] == 0.0
  {
    if |data| > 0 {
      MeanSquareZeroIffFlat(data);
    }
  }

  /**
   * With a square root that vanishes only at zero, the infrared guard of
   * `calculateSpo2` fires exactly when the detrended infrared signal is flat zero.
   */
  lemma IrRmsZeroIffFlat(ir: seq<real>, sqrt: real -> real)
    requires ZeroOnlyAtZero(sqrt)
    ensures Rms(Detrend(ir), sqrt) == 0.0 <==> forall i :: 0 <= i < |ir| ==> Detrend(ir)[i] == 0.0
  {
    RmsZeroIffFlat(Detrend(ir), sqrt);
  }

  /**
   * With the DC levels and the infrared AC fixed, a red channel with more AC
   * energy never reports a higher SpO2.
   */
  lemma CalculatedSpo2FallsWithRedAc(red1: seq<real>, red2: seq<real>, ir: seq<real>, sqrt: real -> real)
    requires CalculateSpo2(red1, ir, sqrt).Some? && CalculateSpo2(red2, ir, sqrt).Some?
    requires Mean(red1) == Mean(red2) && Mean(red1) > 0.0
    requires Mean(ir) > 0.0 && Rms(Detrend(ir), sqrt) > 0.0
    requires Rms(Detrend(red1), sqrt) <= Rms(Detrend(red2), sqrt)
    ensures CalculateSpo2(red1, ir, sqrt).value >= CalculateSpo2(red2, ir, sqrt).value
  {
    var dc := Mean(red1);
    var q := Rms(Detrend(ir), sqrt) / Mean(ir);
    assert q > 0.0;
    var a1, a2 := Rms(Detrend(red1), sqrt) / dc, Rms(Detrend(red2), sqrt) / dc;
    DivideMonotone(Rms(Detrend(red1), sqrt), Rms(Detrend(red2), sqrt), dc);
    DivideMonotone(a1, a2, q);
    Spo2Antitone(a1 / q, a2 / q);
  }

  // ---------------------------------------------------------------------------
  // PPG window: BVP and SpO2
  // ---------------------------------------------------------------------------

  datatype PpgResult = PpgResult(bvp: Option<real>, spo2: Option<real>)

  /**
   * `processPpgWindow` over a copy of the three PPG buffers: nothing below 80%
   * of the window, otherwise the last detrended green sample and the SpO2.
   */
  function ProcessPpgWindow(green: seq<real>, red: seq<real>, ir: seq<real>, sqrt: real -> real): (r: PpgResult)
    ensures r.bvp.Some? <==> |green| >= MIN_PPG_SAMPLES_FOR_SPO2
    ensures r.bvp.Some? ==> r.bvp.value == Detrend(green)[|green| - 1]
    ensures r.spo2.Some? ==> |green| >= MIN_PPG_SAMPLES_FOR_SPO2 && 0.0 <= r.spo2.value <= 100.0
    ensures |green| >= MIN_PPG_SAMPLES_FOR_SPO2 ==> r.spo2 == CalculateSpo2(red, ir, sqrt)
  {
    if |green| < MIN_PPG_SAMPLES_FOR_SPO2 then PpgResult(None, None)
    else
      var bvpSignal := Detrend(green);
      PpgResult(Some(bvpSignal[|bvpSignal| - 1]), CalculateSpo2(red, ir, sqrt))
  }

  /** A green channel that is a pure linear drift has a blood-volume pulse of zero. */
  lemma BvpOfLinearGreen(green: seq<real>, red: seq<real>, ir: seq<real>, sqrt: real -> real, m: real, c: real)
    requires |green| >= MIN_PPG_SAMPLES_FOR_SPO2
    requires forall i :: 0 <= i < |green| ==> green[i] == m * (i as real) + c
    ensures ProcessPpgWindow(green, red, ir, sqrt).bvp == Some(0.0)
  {
    DetrendOfLine(green, m, c);
  }

  // ---------------------------------------------------------------------------
  // Respiration rate: zero padding and the spectral peak search
  // ---------------------------------------------------------------------------

  function Pow2(k: nat): (r: nat)
    ensures r >= 1
  {
    if k == 0 then 1 else 2 * Pow2(k - 1)
  }

  /** `32 - Integer.numberOfLeadingZeros(m)` for a non-negative 32-bit `m`. */
  function BitLength(m: nat): nat
  {
    if m == 0 then 0 else 1 + BitLength(m / 2)
  }

  predicate IsPowerOfTwo(p: nat)
  {
    p == 1 || (p >= 2 && p % 2 == 0 && IsPowerOfTwo(p / 2))
  }

  lemma {:induction false} Pow2IsPowerOfTwo(k: nat)
    ensures IsPowerOfTwo(Pow2(k))
  {
    if k > 0 {
      Pow2IsPowerOfTwo(k - 1);
    }
  }

  lemma {:induction false} BitLengthBounds(m: nat)
    ensures m < Pow2(BitLength(m))
    ensures m > 0 ==> Pow2(BitLength(m)) <= 2 * m
  {
    if m > 0 {
      BitLengthBounds(m / 2);
    }
  }

  /** Largest length for which `1 shl bitLength` stays a positive 32-bit int. */
  const MAX_FFT_INPUT: nat := 0x4000_0000

  /** `paddedN`: the least power of two that is at least `n`. */
  function PaddedLength(n: nat): (p: nat)
    requires 1 <= n <= MAX_FFT_INPUT
    ensures IsPowerOfTwo(p)
    ensures n <= p < 2 * n
  {
    BitLengthBounds(n - 1);
    Pow2IsPowerOfTwo(BitLength(n - 1));
    Pow2(BitLength(n - 1))
  }

  /** The sampling rate of the heart-rate series and the respiration band, in Hz. */
  const HR_FS: real := 1.0
  const MIN_RESP_FREQ: real := 0.1
  const MAX_RESP_FREQ: real := 0.5

  /** The frequency of bin `i` of a `paddedN`-point transform. */
  function BinFrequency(i: int, paddedN: nat): real
    requires paddedN > 0
  {
    (i as real) * HR_FS / (paddedN as real)
  }

  /** The bins the scan considers: past DC, below Nyquist, inside the breathing band. */
  predicate InBand(i: int, paddedN: nat)
  {
    1 <= i < paddedN / 2 && MIN_RESP_FREQ <= BinFrequency(i, paddedN) <= MAX_RESP_FREQ
  }

  /** Bin `k` is the first in-band bin of largest magnitude. */
  ghost predicate IsPeak(magnitudes: seq<real>, paddedN: nat, k: int)
  {
    && |magnitudes| == paddedN
    && InBand(k, paddedN)
    && (forall j :: InBand(j, paddedN) ==> magnitudes[j] <= magnitudes[k])
    && (forall j :: InBand(j, paddedN) && j < k ==> magnitudes[j] < magnitudes[k])
  }

  /** The peak is determined uniquely. */
  lemma PeakUnique(magnitudes: seq<real>, paddedN: nat, k1: int, k2: int)
    requires IsPeak(magnitudes, paddedN, k1) && IsPeak(magnitudes, paddedN, k2)
    ensures k1 == k2
  {
  }

  /** Every in-band bin converts to between 6 and 30 breaths per minute. */
  lemma InBandRate(k: int, paddedN: nat)
    requires InBand(k, paddedN)
    ensures 6.0 <= BinFrequency(k, paddedN) * 60.0 < 30.0
  {
    assert 2 * k < paddedN;
    var f := BinFrequency(k, paddedN);
    var nr := paddedN as real;
    assert f * nr == k as real;
    assert (k as real) * 2.0 < nr;
    assert f < 0.5;
  }

  /** A transform of 20 or more points always has an in-band bin. */
  lemma BandNonEmpty(paddedN: nat)
    requires paddedN >= 20
    ensures InBand(paddedN / 10 + 1, paddedN)
  {
    var k := paddedN / 10 + 1;
    var nr := paddedN as real;
    assert (k as real) * 10.0 > nr;
    assert BinFrequency(k, paddedN) * nr == k as real;
    assert k < paddedN / 2;
    assert BinFrequency(k, paddedN) < 0.5;
  }

  /**
   * The bin scan of `processHrWindow`: the first bin of strictly largest
   * magnitude in the band wins, and its frequency becomes breaths per minute.
   */
  method PeakRespirationRate(magnitudes: seq<real>, paddedN: nat) returns (rate: Option<real>)
    requires |magnitudes| == paddedN
    requires forall i :: 0 <= i < paddedN ==> magnitudes[i] >= 0.0
    ensures rate.None? <==> forall i :: 0 <= i < paddedN ==> !InBand(i, paddedN)
    ensures rate.Some? ==> exists k :: IsPeak(magnitudes, paddedN, k) && rate.value == BinFrequency(k, paddedN) * 60.0
    ensures rate.Some? ==> 6.0 <= rate.value < 30.0
  {
    var maxMagnitude := -1.0;
    var peakFreq := 0.0;
    ghost var peak := -1;
    var i := 1;
    while i < paddedN / 2
      invariant 1 <= i && (paddedN / 2 >= 1 ==> i <= paddedN / 2)
      invariant peak == -1 <==> maxMagnitude == -1.0
      invariant peak == -1 ==> forall j :: 1 <= j < i ==> !InBand(j, paddedN)
      invariant peak != -1 ==> 1 <= peak < i && InBand(peak, paddedN)
      invariant peak != -1 ==> maxMagnitude == magnitudes[peak] && peakFreq == BinFrequency(peak, paddedN)
      invariant peak != -1 ==> forall j :: 1 <= j < i && InBand(j, paddedN) ==> magnitudes[j] <= maxMagnitude
      invariant peak != -1 ==> forall j :: 1 <= j < peak && InBand(j, paddedN) ==> magnitudes[j] < maxMagnitude
    {
      var freq := (i as real) * HR_FS / (paddedN as real);
      if freq >= MIN_RESP_FREQ && freq <= MAX_RESP_FREQ {
        var magnitude := magnitudes[i];
        if magnitude > maxMagnitude {
          maxMagnitude := magnitude;
          peakFreq := freq;
          peak := i;
        }
      }
      i := i + 1;
    }
    if maxMagnitude == -1.0 {
      rate := None;
    } else {
      rate := Some(peakFreq * 60.0);
      InBandRate(peak, paddedN);
      assert IsPeak(magnitudes, paddedN, peak);
    }
  }

  /** The detrended heart-rate series, zero-padded to `paddedN` samples. */
  function PaddedSignal(hr: seq<real>): (r: seq<real>)
    requires 1 <= |hr| <= MAX_FFT_INPUT
    ensures |r| == PaddedLength(|hr|)
    ensures r[..|hr|] == Detrend(hr)
    ensures forall i :: |hr| <= i < |r| ==> r[i] == 0.0
  {
    Detrend(hr) + seq(PaddedLength(|hr|) - |hr|, _ => 0.0)
  }

  /** What the model needs of the FFT: one non-negative magnitude per input sample. */
  ghost predicate IsSpectrum(spectrum: seq<real> -> seq<real>)
  {
    forall d :: |spectrum(d)| == |d| && forall i :: 0 <= i < |spectrum(d)| ==> spectrum(d)[i] >= 0.0
  }

  /**
   * `processHrWindow` over a copy of the heart-rate values: absent below 30
   * samples, otherwise the peak of the padded spectrum in breaths per minute.
   */
  method ProcessHrWindow(hrValues: seq<real>, spectrum: seq<real> -> seq<real>) returns (rate: Option<real>)
    requires |hrValues| <= MAX_FFT_INPUT
    requires IsSpectrum(spectrum)
    ensures rate.None? <==> |hrValues| < MIN_HR_SAMPLES_FOR_RESP
    ensures rate.Some? ==> 6.0 <= rate.value < 30.0
    ensures rate.Some? ==>
      exists k :: IsPeak(spectrum(PaddedSignal(hrValues)), PaddedLength(|hrValues|), k)
               && rate.value == BinFrequency(k, PaddedLength(|hrValues|)) * 60.0
  {
    if |hrValues| < MIN_HR_SAMPLES_FOR_RESP {
      return None;
    }
    var detrendedHr := Detrend(hrValues);
    var n := |detrendedHr|;
    var paddedN := PaddedLength(n);
    var paddedData := detrendedHr + seq(paddedN - n, _ => 0.0);
    assert paddedData == PaddedSignal(hrValues);
    var magnitudes := spectrum(paddedData);
    BandNonEmpty(paddedN);
    rate := PeakRespirationRate(magnitudes, paddedN);
  }
}
