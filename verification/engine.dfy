/**
 * The buffer-analysis side of the tuner (GuitarTuner/ToneEngine.swift): zero-padding a
 * captured buffer to a power of two, picking the dominant FFT bin, and classifying each
 * delivered buffer into an `EngineState` for the tuner's callback.
 *
 * The FFT itself (vDSP setup, packing, transform, magnitudes) is not modelled: it is a
 * function parameter `fft` that either fails (`None`, no FFT setup) or yields the bin
 * magnitudes. The buffer's loudness (RMS converted to decibels) is an opaque `real` input.
 */
module Engine {
  import opened Wrappers

  /** Outcome of one tap callback, as reported to the tuner. */
  datatype EngineState = AudioFrequencyDone | AudioCaptureNull | AudioFrequencyAnalyseError

  /** The sample rate the frequency mapping assumes; the code hard-codes it. */
  const SampleRate: real := 44100.0

  // ---------------------------------------------------------------------------
  // Powers of two and the padded length
  // ---------------------------------------------------------------------------

  predicate IsPow2(p: nat)
  {
    p == 1 || (p >= 2 && p % 2 == 0 && IsPow2(p / 2))
  }

  /**
   * The padded length `1 << ceil(log2(frameLength))`: the smallest power of two that is
   * at least `n`. Only defined for `n >= 1` (the code only pads non-empty buffers).
   */
  function TargetLength(n: nat): (p: nat)
    requires n >= 1
    ensures IsPow2(p)
    ensures n <= p < 2 * n
    decreases n
  {
    if n == 1 then 1
    else
      var half := TargetLength((n + 1) / 2);
      assert n % 2 == 1 ==> half != n;
      2 * half
  }

  /** No power of two at or above `n` is smaller than `TargetLength(n)`. */
  lemma {:induction false} TargetLengthIsSmallest(n: nat, q: nat)
    requires n >= 1 && IsPow2(q) && n <= q
    ensures TargetLength(n) <= q
    decreases n
  {
    if n > 1 {
      assert q >= 2;
      TargetLengthIsSmallest((n + 1) / 2, q / 2);
    }
  }

  /** A length is already a power of two exactly when padding would not change it. */
  lemma TargetLengthFixesPow2(n: nat)
    requires n >= 1
    ensures IsPow2(n) <==> TargetLength(n) == n
  {
    if IsPow2(n) {
      TargetLengthIsSmallest(n, n);
    }
  }

  // ---------------------------------------------------------------------------
  // padOrTrimBufferToPowerOfTwo
  // ---------------------------------------------------------------------------

  function Zeros(k: nat): (z: seq<real>)
    ensures |z| == k && forall i :: 0 <= i < k ==> z[i] == 0.0
  {
    seq(k, _ => 0.0)
  }

  /**
   * What the padding step produces: the buffer's samples followed by zeros up to the
   * smallest power of two that is at least its length.
   */
  function ZeroPadded(samples: seq<real>): (r: seq<real>)
    requires |samples| >= 1
    ensures |r| == TargetLength(|samples|)
    ensures |samples| <= |r| < 2 * |samples|
    ensures r[..|samples|] == samples
    ensures forall i :: |samples| <= i < |r| ==> r[i] == 0.0
    ensures IsPow2(|samples|) ==> r == samples
  {
    TargetLengthFixesPow2(|samples|);
    samples + Zeros(TargetLength(|samples|) - |samples|)
  }

  /**
   * Pads the captured samples with zeros to a power-of-two length, filling a fresh array
   * in place; a buffer whose length is already a power of two is returned as it is.
   */
  method PadOrTrimBufferToPowerOfTwo(samples: seq<real>) returns (padded: seq<real>)
    requires |samples| >= 1
    ensures padded == ZeroPadded(samples)
  {
    var frameLength := |samples|;
    var targetLength := TargetLength(frameLength);
    if frameLength == targetLength {
      TargetLengthFixesPow2(frameLength);
      return samples;
    }
    var paddedData := new real[targetLength](_ => 0.0);
    var copied := if frameLength < targetLength then frameLength else targetLength;
    for i := 0 to copied
      invariant forall j :: 0 <= j < i ==> paddedData[j] == samples[j]
      invariant forall j :: i <= j < targetLength ==> paddedData[j] == 0.0
    {
      paddedData[i] := samples[i];
    }
    padded := paddedData[..];
    assert padded == samples + Zeros(targetLength - frameLength);
  }

  // ---------------------------------------------------------------------------
  // findDominantFrequence
  // ---------------------------------------------------------------------------

  /** `i` is the first index holding the largest magnitude. */
  predicate IsFirstMax(mags: seq<real>, i: nat)
  {
    && i < |mags|
    && (forall j :: 0 <= j < |mags| ==> mags[j] <= mags[i])
    && (forall j :: 0 <= j < i ==> mags[j] < mags[i])
  }

  /** `firstIndex(of: max())`: the position of the first occurrence of the maximum. */
  function FirstMaxIndex(mags: seq<real>): (i: nat)
    requires |mags| > 0
    ensures IsFirstMax(mags, i)
    decreases |mags|
  {
    if |mags| == 1 then 0
    else
      var j := FirstMaxIndex(mags[..|mags| - 1]);
      if mags[|mags| - 1] > mags[j] then |mags| - 1 else j
  }

  /** At most one index is the first maximum. */
  lemma FirstMaxIsUnique(mags: seq<real>, i: nat, k: nat)
    requires IsFirstMax(mags, i) && IsFirstMax(mags, k)
    ensures i == k
  {
    assert mags[i] == mags[k];
  }

  /**
   * The frequency of the strongest bin, `i * sampleRate / (2 * |mags|)` for the first
   * index `i` of the largest magnitude; bin 0 (DC) is a candidate like any other. No
   * magnitudes at all give 0.0.
   */
  function FindDominantFrequence(mags: seq<real>, sampleRate: real): (f: real)
    ensures |mags| == 0 ==> f == 0.0
    ensures |mags| > 0 ==>
      exists i :: IsFirstMax(mags, i) && f == (i as real) * sampleRate / ((2 * |mags|) as real)
    ensures sampleRate > 0.0 ==> 0.0 <= f < sampleRate / 2.0
  {
    if |mags| == 0 then 0.0
    else
      var maxIndex := FirstMaxIndex(mags);
      var n := |mags| as real;
      var binFrequency := sampleRate / (2.0 * n);
      var f := (maxIndex as real) * binFrequency;
      assert (maxIndex as real) * sampleRate / ((2 * |mags|) as real) == f;
      if sampleRate > 0.0 then
        assert binFrequency > 0.0;
        assert n * binFrequency == sampleRate / 2.0;
        assert f <= (n - 1.0) * binFrequency;
        f
      else
        f
  }

  /** When bin 0 holds a largest magnitude, the reported frequency is 0.0. */
  lemma DcBinWins(mags: seq<real>, sampleRate: real)
    requires |mags| > 0
    requires forall j :: 0 <= j < |mags| ==> mags[j] <= mags[0]
    ensures FindDominantFrequence(mags, sampleRate) == 0.0
  {
    assert IsFirstMax(mags, 0);
    forall i | IsFirstMax(mags, i)
      ensures i == 0
    {
      FirstMaxIsUnique(mags, i, 0);
    }
  }

  // ---------------------------------------------------------------------------
  // analyzeFrequence
  // ---------------------------------------------------------------------------

  /** The FFT yields one magnitude per pair of padded samples whenever its setup succeeds. */
  ghost predicate FftShape(fft: seq<real> -> Option<seq<real>>)
  {
    forall s :: fft(s).Some? ==> |fft(s).value| == |s| / 2
  }

  /** The frequency `analyzeFrequence` reports for a non-empty buffer. */
  function AnalyzedFrequency(samples: seq<real>, fft: seq<real> -> Option<seq<real>>): (f: real)
    requires |samples| >= 1
    ensures 0.0 <= f < SampleRate / 2.0
  {
    match fft(ZeroPadded(samples))
    case None => 0.0
    case Some(mags) => FindDominantFrequence(mags, SampleRate)
  }

  /**
   * Pads the buffer, runs the FFT and maps the strongest bin to a frequency; a failed
   * FFT setup reports 0.0. This is the executable pipeline, which pads through the
   * in-place fill; `AnalyzedFrequency` is its specification, usable from functions,
   * lemmas and the engine's contracts.
   */
  method AnalyzeFrequence(samples: seq<real>, fft: seq<real> -> Option<seq<real>>) returns (f: real)
    requires |samples| >= 1
    ensures f == AnalyzedFrequency(samples, fft)
    ensures 0.0 <= f < SampleRate / 2.0
  {
    var paddedData := PadOrTrimBufferToPowerOfTwo(samples);
    var spectrum := fft(paddedData);
    if spectrum.None? {
      return 0.0;
    }
    f := FindDominantFrequence(spectrum.value, SampleRate);
  }

  /** A one-frame buffer pads to length 1, has no magnitudes and so reports 0.0. */
  lemma OneFrameBufferHasNoFrequency(samples: seq<real>, fft: seq<real> -> Option<seq<real>>)
    requires |samples| == 1 && FftShape(fft)
    ensures AnalyzedFrequency(samples, fft) == 0.0
  {
    var padded := ZeroPadded(samples);
    assert |padded| == 1;
    if fft(padded).Some? {
      assert |fft(padded).value| == 0;
    }
  }

  // ---------------------------------------------------------------------------
  // The tap callback's classification
  // ---------------------------------------------------------------------------

  /**
   * How the tap callback labels a buffer from its frame count and the frequency the
   * engine holds afterwards.
   */
  function Classify(frameLength: nat, frequence: real): (s: EngineState)
    ensures s == AudioCaptureNull <==> frameLength == 0
    ensures s == AudioFrequencyDone <==> frameLength > 0 && frequence != 0.0
    ensures s == AudioFrequencyAnalyseError <==> frameLength > 0 && frequence == 0.0
  {
    if frameLength > 0 then
      if frequence != 0.0 then AudioFrequencyDone else AudioFrequencyAnalyseError
    else
      AudioCaptureNull
  }

  /** The engine keeps the last analysed frequency and volume in two fields. */
  class ToneEngine {
    var frequence: real
    var volume: real

    constructor ()
      ensures frequence == 0.0 && volume == 0.0
    {
      frequence := 0.0;
      volume := 0.0;
    }

    /** Analyses a non-empty buffer and stores its frequency and loudness. */
    method ProcessAudioBuffer(samples: seq<real>, fft: seq<real> -> Option<seq<real>>, loudness: real)
      requires |samples| >= 1
      modifies this
      ensures frequence == AnalyzedFrequency(samples, fft)
      ensures volume == loudness
    {
      var f := AnalyzeFrequence(samples, fft);
      frequence := f;
      volume := loudness;
    }

    /**
     * The body of the tap installed by `startCapture`: the arguments it hands to the
     * tuner's callback for one delivered buffer. An empty buffer is not analysed, so the
     * callback sees the previous buffer's frequency and volume.
     */
    method Tap(samples: seq<real>, fft: seq<real> -> Option<seq<real>>, loudness: real)
      returns (state: EngineState, freq: real, vol: real)
      modifies this
      ensures |samples| == 0 ==> frequence == old(frequence) && volume == old(volume)
      ensures |samples| > 0 ==> frequence == AnalyzedFrequency(samples, fft) && volume == loudness
      ensures state == Classify(|samples|, frequence)
      ensures freq == frequence && vol == volume
    {
      if |samples| > 0 {
        ProcessAudioBuffer(samples, fft, loudness);
        if frequence != 0.0 {
          return AudioFrequencyDone, frequence, volume;
        } else {
          return AudioFrequencyAnalyseError, frequence, volume;
        }
      } else {
        return AudioCaptureNull, frequence, volume;
      }
    }
  }
}
