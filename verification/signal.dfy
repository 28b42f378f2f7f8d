/**
  The signal extractor: the loudness estimate of rmsFromTimeDomain (up to the
  square root) and the dominant-frequency estimate of calcPeakFreq
  (app.js:141-161). Buffers are the analyser's Uint8Array contents, modelled
  as sequences of integers in 0..255.
 */
module Signal {

  /** The analyser's FFT size (app.js:118); the time-domain buffer has this
      many samples and the frequency buffer half as many bins. */
  const FftSize: nat := 2048
  const BinCount: nat := FftSize / 2

  /** The time-domain sample that stands for silence. */
  const Midpoint: int := 128
  /** 128 * 128: the square of the largest deviation from the midpoint. */
  const FullScale: int := 16384

  predicate IsByte(b: int)
  {
    0 <= b < 256
  }

  predicate IsByteSeq(buf: seq<int>)
  {
    forall i :: 0 <= i < |buf| ==> IsByte(buf[i])
  }

  predicate IsSilent(buf: seq<int>)
  {
    forall i :: 0 <= i < |buf| ==> buf[i] == Midpoint
  }

  // ---------------------------------------------------------------------
  // Loudness
  // ---------------------------------------------------------------------

  /** The squared integer deviation of one sample from the midpoint. */
  function SquaredDeviation(b: int): int
  {
    (b - Midpoint) * (b - Midpoint)
  }

  /** Sum of the squared integer deviations (b - 128)^2 over the buffer. */
  function SumSqDev(buf: seq<int>): int
  {
    if |buf| == 0 then 0
    else SumSqDev(buf[..|buf| - 1]) + SquaredDeviation(buf[|buf| - 1])
  }

  lemma MulMonotone(a: int, b: int, c: int)
    requires a <= b && 0 <= c
    ensures a * c <= b * c
  {
  }

  lemma NegSquare(d: int)
    ensures (-d) * (-d) == d * d
  {
  }

  lemma SquareBound(d: int)
    requires -128 <= d <= 127
    ensures 0 <= d * d <= FullScale
  {
    var m := if d >= 0 then d else -d;
    NegSquare(d);
    assert d * d == m * m;
    MulMonotone(0, m, m);
    MulMonotone(m, 128, m);
    MulMonotone(m, 128, 128);
    assert m * 128 == 128 * m;
  }

  lemma SquareZero(d: int)
    ensures d * d == 0 <==> d == 0
  {
    if d > 0 {
      assert d * d >= d;
    } else if d < 0 {
      assert d * d >= -d;
    }
  }

  /** A byte's squared deviation from the midpoint is at most 128^2 and is
      zero exactly at the midpoint. */
  lemma SquaredDeviationBounds(b: int)
    requires IsByte(b)
    ensures 0 <= SquaredDeviation(b) <= FullScale
    ensures SquaredDeviation(b) == 0 <==> b == Midpoint
  {
    var d := b - Midpoint;
    assert SquaredDeviation(b) == d * d;
    SquareBound(d);
    SquareZero(d);
  }

  /** The integer sum lies in [0, n * 128^2] and is zero exactly on silence. */
  lemma {:induction false} SumSqDevBounds(buf: seq<int>)
    requires IsByteSeq(buf)
    ensures 0 <= SumSqDev(buf) <= |buf| * FullScale
    ensures SumSqDev(buf) == 0 <==> IsSilent(buf)
  {
    if |buf| > 0 {
      var init := buf[..|buf| - 1];
      var last := buf[|buf| - 1];
      assert IsByteSeq(init) by {
        forall i | 0 <= i < |init| ensures IsByte(init[i]) {
          assert init[i] == buf[i];
        }
      }
      SumSqDevBounds(init);
      SquaredDeviationBounds(last);
      if IsSilent(buf) {
        assert IsSilent(init) by {
          forall i | 0 <= i < |init| ensures init[i] == Midpoint {
            assert init[i] == buf[i];
          }
        }
      }
      if SumSqDev(buf) == 0 {
        assert forall i :: 0 <= i < |buf| ==> buf[i] == Midpoint by {
          forall i | 0 <= i < |buf| ensures buf[i] == Midpoint {
            if i < |init| {
              assert init[i] == buf[i];
            }
          }
        }
      }
    }
  }

  /** One time-domain sample scaled to [-1, 1). */
  function Normalised(b: int): real
  {
    (b - Midpoint) as real / 128.0
  }

  lemma IntSquareAsReal(d: int)
    ensures (d * d) as real == d as real * d as real
  {
  }

  lemma DivSquare(x: real)
    ensures (x / 128.0) * (x / 128.0) == (x * x) / FullScale as real
  {
    var y := x / 128.0;
    assert x == 128.0 * y;
    assert x * x == 16384.0 * (y * y);
  }

  /** The square of a normalised sample is the integer squared deviation
      over 128^2. */
  lemma NormalisedSquare(b: int)
    ensures Normalised(b) * Normalised(b) == SquaredDeviation(b) as real / FullScale as real
  {
    var d := b - Midpoint;
    var x := d as real;
    calc {
      Normalised(b) * Normalised(b);
      (x / 128.0) * (x / 128.0);
      { DivSquare(x); }
      (x * x) / 16384.0;
      { IntSquareAsReal(d); }
      (d * d) as real / 16384.0;
      SquaredDeviation(b) as real / FullScale as real;
    }
  }

  /** The same fact scaled by 128^2, the form the loop's running sum uses. */
  lemma ScaledSquare(b: int)
    ensures Normalised(b) * Normalised(b) * 16384.0 == SquaredDeviation(b) as real
  {
    NormalisedSquare(b);
  }

  /** Extending the buffer by one sample adds that sample's squared
      deviation to the sum. */
  lemma SumSqDevStep(buf: seq<int>, i: nat)
    requires i < |buf|
    ensures SumSqDev(buf[..i + 1]) == SumSqDev(buf[..i]) + SquaredDeviation(buf[i])
  {
    assert buf[..i + 1][..i] == buf[..i];
  }

  /** The mean of the squared normalised samples, computed as the source's
      loop does (the value rmsFromTimeDomain takes the square root of). It is
      the integer sum of squared deviations over n * 128^2, lies in [0, 1],
      and is zero exactly when every sample is the midpoint. */
  method MeanSquare(buf: seq<int>) returns (ms: real)
    requires |buf| > 0
    requires IsByteSeq(buf)
    ensures ms == SumSqDev(buf) as real / (|buf| * FullScale) as real
    ensures 0.0 <= ms <= 1.0
    ensures ms == 0.0 <==> IsSilent(buf)
  {
    var sum := 0.0;
    var i := 0;
    while i < |buf|
      invariant 0 <= i <= |buf|
      invariant sum * 16384.0 == SumSqDev(buf[..i]) as real
    {
      var v := Normalised(buf[i]);
      var sq := v * v;
      ScaledSquare(buf[i]);
      SumSqDevStep(buf, i);
      assert (sum + sq) * 16384.0 == sum * 16384.0 + sq * 16384.0;
      sum := sum + sq;
      i := i + 1;
    }
    assert buf[..|buf|] == buf;
    ms := sum / |buf| as real;
    MeanOfRunningSum(buf, sum);
  }

  /** Dividing the finished running sum by the buffer length gives the
      integer sum over n * 128^2, in [0, 1] and zero exactly on silence. */
  lemma MeanOfRunningSum(buf: seq<int>, sum: real)
    requires |buf| > 0
    requires IsByteSeq(buf)
    requires sum * 16384.0 == SumSqDev(buf) as real
    ensures sum / |buf| as real == SumSqDev(buf) as real / (|buf| * FullScale) as real
    ensures 0.0 <= sum / |buf| as real <= 1.0
    ensures sum / |buf| as real == 0.0 <==> IsSilent(buf)
  {
    assert sum == SumSqDev(buf) as real / FullScale as real;
    MeanSquareOfSum(SumSqDev(buf), |buf|);
    SumSqDevBounds(buf);
    MeanSquareRange(SumSqDev(buf), |buf|);
  }

  /** (s / 128^2) / n == s / (n * 128^2). */
  lemma MeanSquareOfSum(s: int, n: nat)
    requires n > 0
    ensures (s as real / FullScale as real) / n as real == s as real / (n * FullScale) as real
  {
    var f := FullScale as real;
    var nr := n as real;
    assert (n * FullScale) as real == nr * f;
    assert (s as real / f) / nr == s as real / (nr * f);
  }

  /** A sum in [0, n * 128^2] gives a mean square in [0, 1] that is zero
      exactly when the sum is. */
  lemma MeanSquareRange(s: int, n: nat)
    requires n > 0
    requires 0 <= s <= n * FullScale
    ensures 0.0 <= s as real / (n * FullScale) as real <= 1.0
    ensures s as real / (n * FullScale) as real == 0.0 <==> s == 0
  {
    var d := (n * FullScale) as real;
    assert d > 0.0;
    assert s as real <= d;
  }

  // ---------------------------------------------------------------------
  // Dominant frequency
  // ---------------------------------------------------------------------

  /** `k` is the first index holding the buffer's maximum. */
  predicate IsFirstMax(buf: seq<int>, k: nat)
  {
    && k < |buf|
    && (forall j :: 0 <= j < |buf| ==> buf[j] <= buf[k])
    && (forall j :: 0 <= j < k ==> buf[j] < buf[k])
  }

  /** At most one index is the first maximum, so IsFirstMax pins the peak
      bin down. */
  lemma FirstMaxUnique(buf: seq<int>, a: nat, b: nat)
    requires IsFirstMax(buf, a) && IsFirstMax(buf, b)
    ensures a == b
  {
    assert buf[a] <= buf[b] && buf[b] <= buf[a];
  }

  /** The argmax scan of calcPeakFreq: start from index 0 with best value 0
      and move on only at a strictly larger value, so ties go to the first
      index and an all-zero buffer gives 0. */
  method PeakBin(buf: seq<int>) returns (maxI: nat)
    requires IsByteSeq(buf)
    ensures |buf| == 0 ==> maxI == 0
    ensures |buf| > 0 ==> IsFirstMax(buf, maxI)
    ensures (forall j :: 0 <= j < |buf| ==> buf[j] == 0) ==> maxI == 0
  {
    maxI := 0;
    var maxV := 0;
    var i := 0;
    while i < |buf|
      invariant 0 <= i <= |buf|
      invariant 0 <= maxV
      invariant i == 0 ==> maxI == 0 && maxV == 0
      invariant i > 0 ==> maxI < i && buf[maxI] == maxV
      invariant forall j :: 0 <= j < i ==> buf[j] <= maxV
      invariant forall j :: 0 <= j < maxI ==> buf[j] < maxV
      invariant (forall j :: 0 <= j < i ==> buf[j] == 0) ==> maxI == 0
    {
      if buf[i] > maxV {
        maxV := buf[i];
        maxI := i;
      }
      i := i + 1;
    }
  }

  /** Every bin of an all-zero buffer is a maximum, and the first one is 0. */
  lemma AllZeroPeakIsFirstBin(buf: seq<int>, k: nat)
    requires IsByteSeq(buf)
    requires forall j :: 0 <= j < |buf| ==> buf[j] == 0
    requires IsFirstMax(buf, k)
    ensures k == 0
  {
    assert buf[0] == 0 && buf[k] == 0;
  }

  /** Frequency in Hz of bin `bin` of `len` bins spanning 0 .. sampleRate/2. */
  function BinToHz(bin: nat, sampleRate: real, len: nat): (hz: real)
    requires len > 0
    ensures 0.0 <= sampleRate ==> 0.0 <= hz
    ensures 0.0 < sampleRate && bin < len ==> hz < sampleRate / 2.0
  {
    BinScaleBounds(bin, sampleRate / 2.0, len);
    bin as real * (sampleRate / 2.0) / len as real
  }

  lemma MulPreservesLess(a: real, b: real, c: real)
    requires a < b && 0.0 < c
    ensures a * c < b * c
  {
  }

  lemma DivPreservesLess(a: real, b: real, c: real)
    requires a < b && 0.0 < c
    ensures a / c < b / c
  {
  }

  lemma NonNegativeQuotient(a: real, b: real, c: real)
    requires 0.0 <= a && 0.0 <= b && 0.0 < c
    ensures 0.0 <= a * b / c
  {
  }

  lemma BinScaleBounds(bin: nat, nyquist: real, len: nat)
    requires len > 0
    ensures 0.0 <= nyquist ==> 0.0 <= bin as real * nyquist / len as real
    ensures 0.0 < nyquist && bin < len ==> bin as real * nyquist / len as real < nyquist
  {
    var b := bin as real;
    var l := len as real;
    if 0.0 <= nyquist {
      NonNegativeQuotient(b, nyquist, l);
    }
    if 0.0 < nyquist && bin < len {
      MulPreservesLess(b, l, nyquist);
      DivPreservesLess(b * nyquist, l * nyquist, l);
      assert l * nyquist / l == nyquist;
    }
  }

  /** With a positive sample rate a higher bin always maps to a strictly
      higher frequency. */
  lemma BinToHzStrictlyIncreasing(i: nat, j: nat, sampleRate: real, len: nat)
    requires len > 0 && 0.0 < sampleRate
    requires i < j
    ensures BinToHz(i, sampleRate, len) < BinToHz(j, sampleRate, len)
  {
    var n := sampleRate / 2.0;
    var l := len as real;
    MulPreservesLess(i as real, j as real, n);
    DivPreservesLess(i as real * n, j as real * n, l);
  }

  /** Adjacent bins are sampleRate / (2 * len) Hz apart: the resolution of
      the estimate. */
  lemma BinSpacing(i: nat, sampleRate: real, len: nat)
    requires len > 0
    ensures BinToHz(i + 1, sampleRate, len) - BinToHz(i, sampleRate, len) == sampleRate / (2.0 * len as real)
  {
    var n := sampleRate / 2.0;
    var l := len as real;
    assert (i + 1) as real * n == i as real * n + n;
    assert ((i + 1) as real * n) / l - (i as real * n) / l == n / l;
    assert n / l == sampleRate / (2.0 * l);
  }

  /** What an analyser node offers one frame: the time-domain samples, the
      frequency magnitudes and the audio context's sample rate. */
  datatype Analyser = Analyser(timeDomain: seq<int>, freqData: seq<int>, sampleRate: real)

  /** The shape the analyser created in startMic has (app.js:117-120). */
  predicate ValidAnalyser(a: Analyser)
  {
    && |a.timeDomain| == FftSize
    && |a.freqData| == BinCount
    && IsByteSeq(a.timeDomain)
    && IsByteSeq(a.freqData)
    && 0.0 < a.sampleRate
  }

  datatype Option<T> = None | Some(value: T)

  /** calcPeakFreq: 0 without an analyser; otherwise the frequency of the
      first strongest bin, which lies in [0, sampleRate/2). */
  method CalcPeakFreq(analyser: Option<Analyser>) returns (hz: real)
    requires analyser.Some? ==> ValidAnalyser(analyser.value)
    ensures analyser.None? ==> hz == 0.0
    ensures analyser.Some? ==> 0.0 <= hz < analyser.value.sampleRate / 2.0
    ensures analyser.Some? ==> (exists k: nat :: IsFirstMax(analyser.value.freqData, k) &&
                                  hz == BinToHz(k, analyser.value.sampleRate, |analyser.value.freqData|))
    ensures analyser.Some? ==> forall k: nat :: IsFirstMax(analyser.value.freqData, k) ==>
              hz == BinToHz(k, analyser.value.sampleRate, |analyser.value.freqData|)
  {
    if analyser.None? {
      return 0.0;
    }
    var a := analyser.value;
    var maxI := PeakBin(a.freqData);
    hz := BinToHz(maxI, a.sampleRate, |a.freqData|);
    assert IsFirstMax(a.freqData, maxI);
    forall k: nat | IsFirstMax(a.freqData, k)
      ensures hz == BinToHz(k, a.sampleRate, |a.freqData|)
    {
      FirstMaxUnique(a.freqData, k, maxI);
    }
  }

  /** The measuring half of one runLoop frame: the mean square of the
      analyser's 2048 time-domain samples (whose square root, scaled by the
      sensitivity, is the frame's volume) and the peak frequency. */
  method FrameFeatures(a: Analyser) returns (ms: real, hz: real)
    requires ValidAnalyser(a)
    ensures ms == SumSqDev(a.timeDomain) as real / (FftSize * FullScale) as real
    ensures 0.0 <= ms <= 1.0
    ensures ms == 0.0 <==> IsSilent(a.timeDomain)
    ensures 0.0 <= hz < a.sampleRate / 2.0
    ensures forall k: nat :: IsFirstMax(a.freqData, k) ==> hz == BinToHz(k, a.sampleRate, BinCount)
  {
    ms := MeanSquare(a.timeDomain);
    hz := CalcPeakFreq(Some(a));
  }
}
