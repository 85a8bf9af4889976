/**
 * The tuning evaluator (GuitarTuner/Tuner.swift): tones, catalogs, the result record and
 * the `Tuner` object that turns the engine's (state, frequency, volume) callbacks into the
 * current `TunningResult`.
 *
 * The hand-off of each new result to the main queue is modelled as a synchronous update,
 * and the audio engine's start outcome is a `bool` parameter.
 */
module Tuning {
  import opened Wrappers
  import opened Engine

  datatype TunerCode = TunningStarted | TunningStopped | ToTunning | TunningDone | TunningError

  datatype Tone = Tone(pitch: string, name: string, freq: real, detail: string)

  /** A named tuning: target tones in order, the accepted band and the in-tune threshold. */
  datatype TonesConfig = TonesConfig(
    name: string,
    tones: seq<Tone>,
    threshold: real,
    startFreq: real,
    endFreq: real)

  datatype TunningResult = TunningResult(
    tunerCode: TunerCode,
    tone: Option<Tone>,
    currentFrequence: real,
    diffFreq: real)

  /** The minimum loudness, in decibels, a sample needs to reach the evaluator. */
  const VolumeFloor: real := 40.0

  /** The initial `minDiff` of the nearest-tone scan. */
  const Sentinel: real := 1000000.0

  function Abs(x: real): real
  {
    if x < 0.0 then -x else x
  }

  /** How far an observed frequency is from a tone. */
  function Dist(freq: real, t: Tone): real
  {
    Abs(freq - t.freq)
  }

  // ---------------------------------------------------------------------------
  // TunningResult.init
  // ---------------------------------------------------------------------------

  /**
   * Builds a result; the deviation is measured from the tone's frequency, or from 0 when
   * there is no tone.
   */
  function MakeResult(code: TunerCode, tone: Option<Tone>, freq: real): (r: TunningResult)
    ensures r.tunerCode == code && r.tone == tone && r.currentFrequence == freq
    ensures tone.Some? ==> r.diffFreq == freq - tone.value.freq
    ensures tone.None? ==> r.diffFreq == freq
  {
    var target := match tone case Some(t) => t.freq case None => 0.0;
    TunningResult(code, tone, freq, freq - target)
  }

  /** The result a tuner holds while it is not listening. */
  function StoppedResult(): (r: TunningResult)
    ensures r == TunningResult(TunningStopped, None, 0.0, 0.0)
  {
    MakeResult(TunningStopped, None, 0.0)
  }

  // ---------------------------------------------------------------------------
  // The nearest tone
  // ---------------------------------------------------------------------------

  /**
   * Tone `i` is the nearest to `freq`: no tone is closer, and every earlier tone is
   * strictly farther (ties go to the earliest tone).
   */
  predicate IsNearest(tones: seq<Tone>, freq: real, i: nat)
  {
    && i < |tones|
    && (forall j :: 0 <= j < |tones| ==> Dist(freq, tones[i]) <= Dist(freq, tones[j]))
    && (forall j :: 0 <= j < i ==> Dist(freq, tones[i]) < Dist(freq, tones[j]))
  }

  /** The position the left-to-right scan with a strict `<` update settles on. */
  function NearestIndex(tones: seq<Tone>, freq: real): (i: nat)
    requires |tones| > 0
    ensures IsNearest(tones, freq, i)
    decreases |tones|
  {
    if |tones| == 1 then 0
    else
      var j := NearestIndex(tones[..|tones| - 1], freq);
      if Dist(freq, tones[|tones| - 1]) < Dist(freq, tones[j]) then |tones| - 1 else j
  }

  /** Two tones equally near the observed frequency always resolve to the same one. */
  lemma NearestIsUnique(tones: seq<Tone>, freq: real, i: nat, k: nat)
    requires IsNearest(tones, freq, i) && IsNearest(tones, freq, k)
    ensures i == k
  {
    assert Dist(freq, tones[i]) == Dist(freq, tones[k]);
  }

  /** Of two tones at the same distance, the later one is never chosen. */
  lemma EarlierToneWinsTies(tones: seq<Tone>, freq: real, a: nat, b: nat)
    requires a < b < |tones| && Dist(freq, tones[a]) == Dist(freq, tones[b])
    ensures NearestIndex(tones, freq) != b
  {
  }

  /** Some tone is closer than the scan's initial bound, so the scan finds a tone. */
  predicate WithinSentinel(tones: seq<Tone>, freq: real)
  {
    exists j :: 0 <= j < |tones| && Dist(freq, tones[j]) < Sentinel
  }

  predicate InBand(cfg: TonesConfig, freq: real)
  {
    cfg.startFreq <= freq <= cfg.endFreq
  }

  /** What `createTunningResult` needs so that its force-unwraps do not trap. */
  predicate CanEvaluate(cfg: TonesConfig, state: EngineState, freq: real)
  {
    state == AudioFrequencyDone && InBand(cfg, freq) ==> WithinSentinel(cfg.tones, freq)
  }

  // ---------------------------------------------------------------------------
  // createTunningResult
  // ---------------------------------------------------------------------------

  /**
   * The result for one sample: the nearest tone decides between in tune and needs tuning
   * when the frequency lies in the band; a frequency outside the band only reports
   * listening; any other engine state is an error.
   */
  function Evaluate(cfg: TonesConfig, state: EngineState, freq: real): (r: TunningResult)
    requires CanEvaluate(cfg, state, freq)
    ensures r.currentFrequence == freq
    ensures r.tone.Some? ==> r.diffFreq == freq - r.tone.value.freq
    ensures r.tone.None? ==> r.diffFreq == freq
    ensures state != AudioFrequencyDone ==> r.tunerCode == TunningError && r.tone == None
    ensures state == AudioFrequencyDone && !InBand(cfg, freq) ==>
      r.tunerCode == TunningStarted && r.tone == None
    ensures state == AudioFrequencyDone && InBand(cfg, freq) ==>
      exists i: nat :: IsNearest(cfg.tones, freq, i) && r.tone == Some(cfg.tones[i]) &&
        r.tunerCode == (if Dist(freq, cfg.tones[i]) <= cfg.threshold then TunningDone else ToTunning)
  {
    if state == AudioFrequencyDone then
      if InBand(cfg, freq) then
        var i := NearestIndex(cfg.tones, freq);
        var nearest := cfg.tones[i];
        if Dist(freq, nearest) <= cfg.threshold then MakeResult(TunningDone, Some(nearest), freq)
        else MakeResult(ToTunning, Some(nearest), freq)
      else
        MakeResult(TunningStarted, None, freq)
    else
      MakeResult(TunningError, None, freq)
  }

  /**
   * For an in-band sample the tuner reports in tune exactly when some tone lies within
   * the threshold, and otherwise that the string needs tuning.
   */
  lemma InTuneIffSomeToneWithinThreshold(cfg: TonesConfig, freq: real)
    requires InBand(cfg, freq) && WithinSentinel(cfg.tones, freq)
    ensures Evaluate(cfg, AudioFrequencyDone, freq).tunerCode in {TunningDone, ToTunning}
    ensures Evaluate(cfg, AudioFrequencyDone, freq).tunerCode == TunningDone <==>
      exists j :: 0 <= j < |cfg.tones| && Dist(freq, cfg.tones[j]) <= cfg.threshold
  {
    var tones := cfg.tones;
    var i := NearestIndex(tones, freq);
    var r := Evaluate(cfg, AudioFrequencyDone, freq);
    assert r.tunerCode == (if Dist(freq, tones[i]) <= cfg.threshold then TunningDone else ToTunning);
    if r.tunerCode != TunningDone {
      forall j | 0 <= j < |tones|
        ensures Dist(freq, tones[j]) > cfg.threshold
      {
        assert Dist(freq, tones[i]) <= Dist(freq, tones[j]);
      }
    }
  }

  /** Every pair of tones is more than twice the threshold apart. */
  predicate WellSeparated(cfg: TonesConfig)
  {
    forall i, j :: 0 <= i < j < |cfg.tones| ==> Abs(cfg.tones[i].freq - cfg.tones[j].freq) > 2.0 * cfg.threshold
  }

  /** In a well-separated catalog at most one tone is within the threshold of a frequency. */
  lemma AtMostOneToneWithinThreshold(cfg: TonesConfig, freq: real, i: nat, j: nat)
    requires WellSeparated(cfg)
    requires i < |cfg.tones| && j < |cfg.tones|
    requires Dist(freq, cfg.tones[i]) <= cfg.threshold && Dist(freq, cfg.tones[j]) <= cfg.threshold
    ensures i == j
  {
  }

  // ---------------------------------------------------------------------------
  // The per-sample gate of startTunning
  // ---------------------------------------------------------------------------

  /** The callback keeps a sample only when it is loud enough and strictly inside the band. */
  predicate Gate(cfg: TonesConfig, freq: real, volume: real)
  {
    cfg.startFreq < freq < cfg.endFreq && volume > VolumeFloor
  }

  /**
   * A sample that passes the gate lies in the inclusive band, so with a frequency from the
   * engine it never produces the listening result.
   */
  lemma GatedSampleIsInBand(cfg: TonesConfig, freq: real, volume: real)
    requires Gate(cfg, freq, volume) && WithinSentinel(cfg.tones, freq)
    ensures InBand(cfg, freq)
    ensures Evaluate(cfg, AudioFrequencyDone, freq).tunerCode in {TunningDone, ToTunning}
  {
    InTuneIffSomeToneWithinThreshold(cfg, freq);
  }

  /**
   * When the band starts at a non-negative frequency, a buffer the engine could not
   * analyse (frequency 0.0) never passes the gate, so it never yields an error result.
   */
  lemma AnalyseErrorIsDiscarded(cfg: TonesConfig, frameLength: nat, freq: real, volume: real)
    requires cfg.startFreq >= 0.0
    requires Classify(frameLength, freq) == AudioFrequencyAnalyseError
    ensures !Gate(cfg, freq, volume)
  {
  }

  /** A tone that no in-band frequency can be a sentinel's distance away from. */
  predicate Reachable(cfg: TonesConfig)
  {
    exists i :: 0 <= i < |cfg.tones| &&
      cfg.endFreq - Sentinel < cfg.tones[i].freq < cfg.startFreq + Sentinel
  }

  /** With such a tone, every in-band frequency can be evaluated. */
  lemma ReachableCanEvaluate(cfg: TonesConfig, state: EngineState, freq: real)
    requires Reachable(cfg)
    ensures CanEvaluate(cfg, state, freq)
  {
    if state == AudioFrequencyDone && InBand(cfg, freq) {
      var i :| 0 <= i < |cfg.tones| &&
        cfg.endFreq - Sentinel < cfg.tones[i].freq < cfg.startFreq + Sentinel;
      assert Dist(freq, cfg.tones[i]) < Sentinel;
    }
  }

  // ---------------------------------------------------------------------------
  // The Tuner object
  // ---------------------------------------------------------------------------

  class Tuner {
    /** The published current result. */
    var result: TunningResult
    /** The catalog stored by the last `StartTunning`. */
    var config: Option<TonesConfig>
    /** The catalog captured by the installed capture callback; `None` when no callback is installed. */
    var tap: Option<TonesConfig>
    const toneEngine: ToneEngine

    ghost predicate Valid()
      reads this
    {
      tap.Some? ==> config == tap
    }

    constructor ()
      ensures Valid() && fresh(toneEngine)
      ensures toneEngine.frequence == 0.0 && toneEngine.volume == 0.0
      ensures result == StoppedResult() && config == None && tap == None
    {
      result := StoppedResult();
      config := None;
      tap := None;
      toneEngine := new ToneEngine();
    }

    /**
     * Stores the catalog, installs the capture callback for it and reports whether the
     * audio engine started (`engineStarted`, decided outside the model).
     */
    method StartTunning(cfg: TonesConfig, engineStarted: bool) returns (isStarted: bool)
      modifies this
      ensures Valid()
      ensures config == Some(cfg) && tap == Some(cfg)
      ensures isStarted == engineStarted
      ensures result == old(result)
    {
      config := Some(cfg);
      tap := Some(cfg);
      isStarted := engineStarted;
    }

    /** Removes the capture callback and resets the result; the stored catalog is kept. */
    method StopTunning()
      modifies this
      ensures Valid()
      ensures result == StoppedResult() && tap == None
      ensures config == old(config)
    {
      tap := None;
      result := MakeResult(TunningStopped, None, 0.0);
    }

    /** `createTunningResult`: the nearest-tone scan over the stored catalog. */
    method CreateTunningResult(state: EngineState, freq: real) returns (r: TunningResult)
      requires config.Some? && CanEvaluate(config.value, state, freq)
      ensures r == Evaluate(config.value, state, freq)
    {
      var cfg := config.value;
      if state == AudioFrequencyDone {
        if freq >= cfg.startFreq && freq <= cfg.endFreq {
          var tones := cfg.tones;
          var minDiff := Sentinel;
          var nearestTone: Option<Tone> := None;
          ghost var idx: nat := 0;
          for k := 0 to |tones|
            invariant minDiff <= Sentinel
            invariant nearestTone.None? ==> minDiff == Sentinel
            invariant nearestTone.Some? ==>
              idx < k && nearestTone == Some(tones[idx]) && minDiff == Dist(freq, tones[idx])
            invariant forall j :: 0 <= j < k ==> minDiff <= Dist(freq, tones[j])
            invariant nearestTone.Some? ==> forall j :: 0 <= j < idx ==> minDiff < Dist(freq, tones[j])
          {
            var diff := Abs(freq - tones[k].freq);
            if diff < minDiff {
              minDiff := diff;
              nearestTone := Some(tones[k]);
              idx := k;
            }
          }
          assert nearestTone.Some?;
          assert IsNearest(tones, freq, idx);
          NearestIsUnique(tones, freq, idx, NearestIndex(tones, freq));
          if minDiff <= cfg.threshold {
            r := MakeResult(TunningDone, nearestTone, freq);
          } else {
            r := MakeResult(ToTunning, nearestTone, freq);
          }
        } else {
          r := MakeResult(TunningStarted, None, freq);
        }
      } else if state == AudioFrequencyAnalyseError {
        r := MakeResult(TunningError, None, freq);
      } else if state == AudioCaptureNull {
        r := MakeResult(TunningError, None, freq);
      } else {
        r := MakeResult(TunningError, None, freq);
      }
    }

    /**
     * The capture callback installed by `StartTunning`: a loud, strictly in-band sample
     * replaces the result; any other sample leaves it as it was.
     */
    method OnCapture(state: EngineState, freq: real, volume: real)
      requires Valid() && tap.Some?
      requires Gate(tap.value, freq, volume) ==> CanEvaluate(tap.value, state, freq)
      modifies this`result
      ensures Valid()
      ensures result == if Gate(tap.value, freq, volume) then Evaluate(tap.value, state, freq) else old(result)
    {
      var cfg := tap.value;
      if freq > cfg.startFreq && freq < cfg.endFreq && volume > VolumeFloor {
        result := CreateTunningResult(state, freq);
      }
    }

    /**
     * One buffer delivered while listening: the engine analyses it and hands its state,
     * frequency and volume to the capture callback.
     */
    method OnBuffer(samples: seq<real>, fft: seq<real> -> Option<seq<real>>, loudness: real)
      requires Valid() && tap.Some? && Reachable(tap.value)
      modifies this`result, toneEngine
      ensures Valid()
      ensures |samples| == 0 ==>
        toneEngine.frequence == old(toneEngine.frequence) && toneEngine.volume == old(toneEngine.volume)
      ensures |samples| > 0 ==>
        toneEngine.frequence == AnalyzedFrequency(samples, fft) && toneEngine.volume == loudness
      ensures var f, v := toneEngine.frequence, toneEngine.volume;
        result == if Gate(tap.value, f, v) then Evaluate(tap.value, Classify(|samples|, f), f) else old(result)
    {
      var state, freq, vol := toneEngine.Tap(samples, fft, loudness);
      ReachableCanEvaluate(tap.value, state, freq);
      OnCapture(state, freq, vol);
    }
  }
}
