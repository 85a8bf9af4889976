/**
 * The ukulele tuning (GuitarTuner/UkuleleToner.swift) and what the evaluator makes of
 * samples against it.
 */
module Ukulele {
  import opened Wrappers
  import opened Engine
  import opened Tuning

  const G4: Tone := Tone("G4", "SOL", 392.0, "Sol of C")
  const C4: Tone := Tone("C4", "DO", 261.0, "Do of C")
  const E4: Tone := Tone("E4", "MI", 329.63, "MI of C")
  const A4: Tone := Tone("A4", "LA", 440.0, "La of C")

  const UkuleleConfig: TonesConfig := TonesConfig("Ukulele", [G4, C4, E4, A4], 5.0, 200.0, 500.0)

  /** Builds the ukulele catalog by appending its four strings in order. */
  method UkuleleTunerConfig() returns (c: TonesConfig)
    ensures c == UkuleleConfig
    ensures c.name == "Ukulele" && |c.tones| == 4
    ensures c.tones[0].pitch == "G4" && c.tones[0].freq == 392.0
    ensures c.tones[1].pitch == "C4" && c.tones[1].freq == 261.0
    ensures c.tones[2].pitch == "E4" && c.tones[2].freq == 329.63
    ensures c.tones[3].pitch == "A4" && c.tones[3].freq == 440.0
    ensures c.startFreq == 200.0 < c.endFreq == 500.0 && c.threshold == 5.0 > 0.0
  {
    var tones: seq<Tone> := [];
    tones := tones + [Tone("G4", "SOL", 392.0, "Sol of C")];
    tones := tones + [Tone("C4", "DO", 261.0, "Do of C")];
    tones := tones + [Tone("E4", "MI", 329.63, "MI of C")];
    tones := tones + [Tone("A4", "LA", 440.0, "La of C")];
    c := TonesConfig("Ukulele", tones, 5.0, 200.0, 500.0);
  }

  /** Every ukulele string lies strictly inside the band, so each can pass the gate. */
  lemma UkuleleTonesInsideBand()
    ensures forall i :: 0 <= i < |UkuleleConfig.tones| ==>
      UkuleleConfig.startFreq < UkuleleConfig.tones[i].freq < UkuleleConfig.endFreq
  {
  }

  /** The strings are more than twice the threshold apart. */
  lemma UkuleleWellSeparated()
    ensures WellSeparated(UkuleleConfig)
  {
  }

  /** At most one ukulele string is ever within the threshold of an observed frequency. */
  lemma UkuleleAtMostOneStringInTune(freq: real, i: nat, j: nat)
    requires i < |UkuleleConfig.tones| && j < |UkuleleConfig.tones|
    requires Dist(freq, UkuleleConfig.tones[i]) <= UkuleleConfig.threshold
    requires Dist(freq, UkuleleConfig.tones[j]) <= UkuleleConfig.threshold
    ensures i == j
  {
    UkuleleWellSeparated();
    AtMostOneToneWithinThreshold(UkuleleConfig, freq, i, j);
  }

  /** Every in-band frequency can be evaluated against the ukulele catalog. */
  lemma UkuleleReachable()
    ensures Reachable(UkuleleConfig)
  {
    assert UkuleleConfig.endFreq - Sentinel < UkuleleConfig.tones[0].freq < UkuleleConfig.startFreq + Sentinel;
  }

  /** 394 Hz is within 5 Hz of G4: in tune, 2 Hz sharp. */
  lemma UkuleleAt394()
    ensures CanEvaluate(UkuleleConfig, AudioFrequencyDone, 394.0)
    ensures Evaluate(UkuleleConfig, AudioFrequencyDone, 394.0) == TunningResult(TunningDone, Some(G4), 394.0, 2.0)
  {
    assert Dist(394.0, UkuleleConfig.tones[0]) < Sentinel;
    assert NearestIndex(UkuleleConfig.tones, 394.0) == 0;
  }

  /** 400 Hz is nearest to G4 but 8 Hz away: the string needs tuning. */
  lemma UkuleleAt400()
    ensures CanEvaluate(UkuleleConfig, AudioFrequencyDone, 400.0)
    ensures Evaluate(UkuleleConfig, AudioFrequencyDone, 400.0) == TunningResult(ToTunning, Some(G4), 400.0, 8.0)
  {
    assert Dist(400.0, UkuleleConfig.tones[0]) < Sentinel;
    assert NearestIndex(UkuleleConfig.tones, 400.0) == 0;
  }

  /**
   * A tuning session against the ukulele catalog, as the capture callback sees it:
   * only loud, in-band samples change what the tuner shows, and stopping twice is the
   * same as stopping once.
   */
  method UkuleleSession() returns (shown: seq<TunningResult>)
    ensures shown == [
      TunningResult(TunningDone, Some(G4), 394.0, 2.0),
      TunningResult(TunningDone, Some(G4), 394.0, 2.0),
      TunningResult(ToTunning, Some(G4), 400.0, 8.0),
      StoppedResult()]
  {
    var tuner := new Tuner();
    var cfg := UkuleleTunerConfig();
    var started := tuner.StartTunning(cfg, true);
    UkuleleAt394();
    UkuleleAt400();

    tuner.OnCapture(AudioFrequencyDone, 394.0, 60.0);
    var inTune := tuner.result;
    assert inTune == TunningResult(TunningDone, Some(G4), 394.0, 2.0);

    // Out of band, unreadable, and too quiet: all three are discarded.
    assert !Gate(UkuleleConfig, 600.0, 60.0);
    tuner.OnCapture(AudioFrequencyDone, 600.0, 60.0);
    assert !Gate(UkuleleConfig, 0.0, 60.0);
    tuner.OnCapture(AudioFrequencyAnalyseError, 0.0, 60.0);
    assert !Gate(UkuleleConfig, 400.0, 30.0);
    tuner.OnCapture(AudioFrequencyDone, 400.0, 30.0);
    var kept := tuner.result;
    assert kept == inTune;

    tuner.OnCapture(AudioFrequencyDone, 400.0, 60.0);
    var sharp := tuner.result;
    assert sharp == TunningResult(ToTunning, Some(G4), 400.0, 8.0);

    tuner.StopTunning();
    var once := tuner.result;
    tuner.StopTunning();
    assert tuner.result == once;
    shown := [inTune, kept, sharp, tuner.result];
  }

  /**
   * An empty first buffer replays the fresh engine's frequency 0 and volume 0, which the
   * gate discards: the tuner keeps showing the stopped result.
   */
  method EmptyFirstBufferIsDiscarded(fft: seq<real> -> Option<seq<real>>) returns (shown: TunningResult)
    ensures shown == StoppedResult()
  {
    var tuner := new Tuner();
    var cfg := UkuleleTunerConfig();
    var started := tuner.StartTunning(cfg, true);
    UkuleleReachable();
    tuner.OnBuffer([], fft, 0.0);
    shown := tuner.result;
  }
}
