# GuitarTuner tuning core in Dafny

This project models the tuning logic of the GuitarTuner app: how a captured audio buffer becomes
a dominant frequency and an engine state (`ToneEngine`), how the `Tuner` object gates each
(state, frequency, volume) sample and turns it into the current `TunningResult` by finding the
nearest target tone, and the constant ukulele catalog those results are computed against.

- `wrappers.dfy`: the `Option` type used for Swift optionals.
- `engine.dfy` (module `Engine`, GuitarTuner/ToneEngine.swift): `EngineState`, the power-of-two
  padding (an in-place fill of a fresh array), the first-maximum bin search and its frequency,
  the tap callback's classification, and the `ToneEngine` class with its `frequence`/`volume`
  fields.
- `tuning.dfy` (module `Tuning`, GuitarTuner/Tuner.swift): `TunerCode`, `Tone`, `TonesConfig`,
  `TunningResult`, the specification function `Evaluate` of `createTunningResult`, and the
  `Tuner` class whose methods update `result`, `config` and the installed capture callback.
- `ukulele.dfy` (module `Ukulele`, GuitarTuner/UkuleleToner.swift): the four-string catalog,
  its properties and worked examples, and a session driving a `Tuner` through them.

Frequencies, volumes and samples are `real`. The FFT is a function parameter
`fft: seq<real> -> Option<seq<real>>` (`None` when the FFT setup fails; `FftShape` states that
it yields `|padded| / 2` magnitudes). A buffer's loudness (RMS in decibels) is an opaque `real`
input, and whether the audio engine starts is a `bool` input.

Behaviour of the code worth knowing, which the model follows:

- The dominant-bin search does not skip bin 0, so a buffer whose DC bin is largest reports
  0.0 Hz (`Engine.DcBinWins`) and is then classified as an analysis error.
- The sample rate is fixed at 44100 Hz whatever the device delivers.
- The per-sample gate is strict (`startFreq < freq < endFreq`, volume above 40) while the
  evaluator's band test is inclusive; a gated `AudioFrequencyDone` sample therefore always
  passes the inclusive band test, so it never yields `tunningStarted`
  (`Tuning.GatedSampleIsInBand`).
- An unreadable buffer has frequency 0.0, which the gate rejects whenever the band starts at a
  non-negative frequency, so it never produces a `tunningError` result
  (`Tuning.AnalyseErrorIsDiscarded`). An empty buffer replays the previous buffer's frequency and
  volume, so it can reach the evaluator and produce `tunningError` carrying that old frequency.
- Error results carry the observed frequency, and their deviation equals that frequency.
- `stopTunning` removes the callback and resets the result but keeps the stored catalog.

## Model

| member | source | states |
|---|---|---|
| `Tuning.MakeResult` | GuitarTuner/Tuner.swift:38-43 | the deviation is the observed frequency minus the tone's frequency, or the frequency itself when there is no tone |
| `Tuning.StoppedResult` | GuitarTuner/Tuner.swift:90 | the stopped result has code `tunningStopped`, no tone, frequency 0 and deviation 0 |
| `Tuning.NearestIndex` | GuitarTuner/Tuner.swift:122-130 | the scan with a strict `<` update picks a tone no other tone is closer than, and every earlier tone is strictly farther |
| `Tuning.NearestIsUnique` | GuitarTuner/Tuner.swift:126 | the nearest-tone rule determines a single tone: ties always resolve the same way |
| `Tuning.EarlierToneWinsTies` | GuitarTuner/Tuner.swift:124-130 | of two equally distant tones the later one is never chosen |
| `Tuning.Evaluate` | GuitarTuner/Tuner.swift:117-158 | frequency always kept; non-`AudioFrequencyDone` states give `tunningError` with no tone; out of the inclusive band gives `tunningStarted` with no tone; in band gives the nearest tone with `tunningDone` when its distance is at most the threshold and `toTunning` otherwise |
| `Tuning.InTuneIffSomeToneWithinThreshold` | GuitarTuner/Tuner.swift:131-139 | an in-band `AudioFrequencyDone` sample, with some tone within the sentinel, is reported in tune exactly when some tone is within the threshold, and needs tuning otherwise |
| `Tuning.AtMostOneToneWithinThreshold` | GuitarTuner/Tuner.swift:125-131 | when tones are more than twice the threshold apart, at most one is within the threshold of any frequency |
| `Tuning.GatedSampleIsInBand` | GuitarTuner/Tuner.swift:98-120 | an `AudioFrequencyDone` sample passing the strict gate, with some tone within the sentinel, satisfies the inclusive band test and yields `tunningDone` or `toTunning` |
| `Tuning.AnalyseErrorIsDiscarded` | GuitarTuner/Tuner.swift:98-100 | with a non-negative band start, a buffer classified as an analysis error never passes the gate |
| `Tuning.ReachableCanEvaluate` | GuitarTuner/Tuner.swift:122-137 | when some tone is within the 1,000,000 sentinel of the whole band, the force-unwraps of the nearest tone cannot trap |
| `Tuning.Tuner.constructor` | GuitarTuner/Tuner.swift:85-92 | a new tuner holds the stopped result, no catalog and no callback, and its fresh engine holds frequency 0 and volume 0 |
| `Tuning.Tuner.StartTunning` | GuitarTuner/Tuner.swift:94-110 | stores the catalog, installs the callback for it, keeps the result and returns exactly the engine's start outcome |
| `Tuning.Tuner.StopTunning` | GuitarTuner/Tuner.swift:112-115 | removes the callback and resets the result to the stopped result, keeping the catalog; a second call changes nothing further |
| `Tuning.Tuner.CreateTunningResult` | GuitarTuner/Tuner.swift:117-158 | the loop with a 1,000,000 sentinel and strict `<` update returns exactly `Evaluate` of the stored catalog |
| `Tuning.Tuner.OnCapture` | GuitarTuner/Tuner.swift:97-108 | the result is replaced by the evaluation only when the frequency is strictly inside the band and the volume is above 40; otherwise it is unchanged |
| `Tuning.Tuner.OnBuffer` | GuitarTuner/ToneEngine.swift:32-47 | one delivered buffer: the engine's new frequency and volume, classified, pass through the gate into the result |
| `Engine.TargetLength` | GuitarTuner/ToneEngine.swift:95 | the padded length is a power of two in `[n, 2n)` |
| `Engine.TargetLengthIsSmallest` | GuitarTuner/ToneEngine.swift:95 | no power of two at or above `n` is below the padded length |
| `Engine.TargetLengthFixesPow2` | GuitarTuner/ToneEngine.swift:95-100 | the length is unchanged by padding exactly when it is already a power of two |
| `Engine.ZeroPadded` | GuitarTuner/ToneEngine.swift:98-108 | the padded buffer has the target length, starts with the input samples, is zero afterwards, and equals the input when its length is a power of two |
| `Engine.PadOrTrimBufferToPowerOfTwo` | GuitarTuner/ToneEngine.swift:90-109 | the in-place fill of the zeroed array produces exactly the zero-padded buffer |
| `Engine.FirstMaxIndex` | GuitarTuner/ToneEngine.swift:149 | the index holds the largest magnitude and every earlier magnitude is strictly smaller |
| `Engine.FirstMaxIsUnique` | GuitarTuner/ToneEngine.swift:149 | the first maximum is a single index |
| `Engine.FindDominantFrequence` | GuitarTuner/ToneEngine.swift:148-156 | no magnitudes give 0.0; otherwise the result is `i * sampleRate / (2 * count)` for the first maximum `i`, bin 0 included, and lies in `[0, sampleRate / 2)` |
| `Engine.DcBinWins` | GuitarTuner/ToneEngine.swift:149-155 | when bin 0 holds a largest magnitude the reported frequency is 0.0 |
| `Engine.AnalyzedFrequency` | GuitarTuner/ToneEngine.swift:111-146 | the frequency reported for a buffer is in `[0, 22050)` |
| `Engine.AnalyzeFrequence` | GuitarTuner/ToneEngine.swift:111-146 | pads, transforms and picks the dominant bin at 44100 Hz; a failed FFT setup gives 0.0 |
| `Engine.OneFrameBufferHasNoFrequency` | GuitarTuner/ToneEngine.swift:124-152 | a one-frame buffer pads to length 1, has no magnitudes and reports 0.0 |
| `Engine.Classify` | GuitarTuner/ToneEngine.swift:33-46 | no frames give `AudioCaptureNull`; frames with a non-zero frequency give `AudioFrequencyDone`; frames with frequency 0.0 give `AudioFrequencyAnalyseError` |
| `Engine.ToneEngine.constructor` | GuitarTuner/ToneEngine.swift:21-24 | a new engine holds frequency 0 and volume 0 |
| `Engine.ToneEngine.ProcessAudioBuffer` | GuitarTuner/ToneEngine.swift:66-74 | stores the buffer's analysed frequency and its loudness |
| `Engine.ToneEngine.Tap` | GuitarTuner/ToneEngine.swift:32-47 | an empty buffer leaves both fields as they were and is reported with the previous values; otherwise the fields are updated and the state is the classification of the new frequency |
| `Ukulele.UkuleleTunerConfig` | GuitarTuner/UkuleleToner.swift:7-16 | the catalog is named "Ukulele" and has G4 392, C4 261, E4 329.63, A4 440 in that order, band 200 to 500 and threshold 5 |
| `Ukulele.UkuleleTonesInsideBand` | GuitarTuner/UkuleleToner.swift:10-14 | every string lies strictly inside the band, so each can pass the gate |
| `Ukulele.UkuleleWellSeparated` | GuitarTuner/UkuleleToner.swift:10-14 | any two strings are more than twice the threshold apart |
| `Ukulele.UkuleleAtMostOneStringInTune` | GuitarTuner/UkuleleToner.swift:10-14 | at most one string is ever within the threshold of a frequency |
| `Ukulele.UkuleleReachable` | GuitarTuner/UkuleleToner.swift:10-14 | every in-band frequency can be evaluated without trapping |
| `Ukulele.UkuleleAt394` | GuitarTuner/UkuleleToner.swift:10-14 | 394 Hz gives `tunningDone`, G4, deviation +2 |
| `Ukulele.UkuleleAt400` | GuitarTuner/UkuleleToner.swift:10-14 | 400 Hz gives `toTunning`, G4, deviation +8 |
| `Ukulele.EmptyFirstBufferIsDiscarded` | GuitarTuner/ToneEngine.swift:43-45 | an empty first buffer replays the new engine's 0 Hz and volume 0, which the gate discards, so the tuner still shows the stopped result |
| `Ukulele.UkuleleSession` | GuitarTuner/Tuner.swift:94-115 | in a session, 394 Hz shows in tune; 600 Hz, an unreadable 0 Hz sample and a quiet sample change nothing; 400 Hz shows needs tuning; stopping twice equals stopping once |

## Left out

- Audio capture: `AVAudioEngine` stop/reset, tap installation and removal, prepare/start and
  its error (GuitarTuner/ToneEngine.swift:27-31, 49-63) are hardware I/O; the start outcome is a
  `bool` input and an installed tap is the `Tuner.tap` field.
- The FFT (vDSP setup, packing, transform, magnitudes; GuitarTuner/ToneEngine.swift:117-142) is
  foreign numeric code; it is the `fft` parameter.
- `analyseAudioVolume` (RMS and `20 * log10`; GuitarTuner/ToneEngine.swift:76-88) is
  floating-point numerics; the loudness is a `real` input.
- IEEE `Float`/`Double` rounding, including the `ceil(log2(...))` computation of the padded length,
  which the model takes to be exact.
- The `floatChannelData` nil guards (GuitarTuner/ToneEngine.swift:77, 91): a buffer is its
  sample sequence. Padding is only specified for non-empty buffers, as the tap only analyses those.
- The force-unwraps `self.config!` and `tones!` (GuitarTuner/Tuner.swift:120, 124) and
  `nearestTone!` (GuitarTuner/Tuner.swift:133, 137) would trap; the model does not model the trap
  but makes them preconditions: `config.Some?` and `CanEvaluate` on `CreateTunningResult`, and
  `Reachable` on `OnBuffer`.
- `Tuning.Tuner.OnBuffer`: `Reachable` (one tone within 1,000,000 Hz of both band ends) is
  stronger than the code needs, which is only that every gated frequency below 22050 Hz lies
  within 1,000,000 Hz of some tone (an analysed or replayed frequency always stays below 22050 Hz).
- `TonesConfig.tones` is a Swift optional that the initializer always sets; the model holds a plain sequence.
- The `DispatchQueue.main.async` hand-off and the capture thread: the result update is synchronous.
- The `description` strings of `TunerCode`, `TunningResult` and `Tone`, and every log call.
- GuitarTuner/ContentView.swift (SwiftUI views), GuitarTuner/Logger.swift (logging) and
  GuitarTuner/Item.swift (a persisted timestamp record) are not part of this model.
