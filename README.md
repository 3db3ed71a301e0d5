# PixelPlayer audio DSP stage and library helpers, in Dafny

This project models the parts of the PixelPlayer Android music player whose
behaviour can be stated without the Android framework:

- **Titan equaliser** (`TitanEqCore.kt`). A `BiquadFilter` holds five
  coefficients and a four-value history. `process` is the direct-form-I
  recurrence, `reset` zeroes the history, and `configurePeakingEq` writes
  the peaking-EQ design. `TitanEqCore` owns a left and a right array of
  filters. Its `setup` configures the enabled band slots and resets the
  disabled ones. `processL`/`processR` cascade a sample through the enabled
  slots in ascending order.
- **Titan audio processor** (`TitanAudioProcessor.kt`). This is the media3
  processor that applies pre-amp × ReplayGain, then the equaliser routed by
  channel parity, then a [-1, 1] limiter to interleaved float PCM. It also
  has setters for gains, bands and the EQ switch, and flush/reset.
- **Stored waveforms** (`WaveformEntity.kt`). Room type converters turn a
  `FloatArray` into a little-endian byte blob and back. The entity's
  content-based `equals`/`hashCode` are also modelled.
- **Waveform scrubber** (`WaveformScrubber.kt`). `downsample` reduces a
  waveform to one mean per bar. The scrubber also turns a touch position
  into progress, and has a press/drag gesture state.
- **Artist screen** (`ArtistDetailViewModel.kt`). `buildAlbumSections`
  groups songs by album, sorts each album's songs, and orders the albums.
  The model also covers the state published once an artist loads, and
  `removeSongFromAlbumSection`.
- **Library records** (`LibraryModels.kt`). These are the `Album.empty()`
  and `Artist.empty()` placeholders and `Artist.effectiveImageUrl`.

How Kotlin values are modelled:

- Kotlin `Float` becomes `real` in the DSP code.
- `pow`, `sin`, `cos` and `PI` are the fields of a `FloatMath` value passed
  as a parameter. A float division by zero gives an unspecified value.
- Waveform floats are their IEEE 754 `bv32` bit patterns, so the
  converters' round trips are bit-exact statements.
- Objects whose fields the source updates in place are classes:
  `BiquadFilter`, `TitanEqCore`, `TitanAudioProcessor` and the scrubber's
  gesture state. Each method is proved against a pure function on values:
  - `Step` and `Run` for one filter;
  - `PeakingEq` for the filter design;
  - `CascadeUpTo`/`Cascade` for the cascade;
  - `Configure` for setup;
  - `ResetAll` for reset;
  - `RunChain` for a buffer;
  - `Encode`/`Decode` for the converters;
  - `Downsampled` for downsampling.
- Properties of the source are proved about those functions.

Files: `titan_eq_core.dfy` (module `TitanEq`), `titan_audio_processor.dfy`
(`TitanAudio`), `waveform_entity.dfy` (`Waveform`), `waveform_scrubber.dfy`
(`Scrubber`), `artist_detail.dfy` (`ArtistDetail`), `library_models.dfy`
(`Library`). The shared helpers are `text.dfy` (`Text`: blankness and
string order), `sorting.dfy` (`Sorting`: Kotlin's stable `sortedWith`),
`arith.dfy` (`IntArith`) and `optional.dfy` (`Optional`: nullable values).

## Model

| member | source | states |
|---|---|---|
| TitanEq.Step | app/src/main/java/com/theveloper/pixelplay/data/service/player/TitanEqCore.kt:50-57 | the direct-form-I recurrence y = b0·x + b1·x1 + b2·x2 − a1·y1 − a2·y2 for one sample; never changes the coefficients (its history shift is `StepShiftsHistory`) |
| TitanEq.Run | app/src/main/java/com/theveloper/pixelplay/data/service/player/TitanEqCore.kt:50-57 | feeding a signal through one filter gives one output per input and never changes the coefficients |
| TitanEq.StepShiftsHistory | app/src/main/java/com/theveloper/pixelplay/data/service/player/TitanEqCore.kt:50-57 | after `process(x)`: x1 = x, x2 = old x1, y1 = the output, y2 = old y1; the coefficients are unchanged |
| TitanEq.UnconfiguredFilterIsSilent | app/src/main/java/com/theveloper/pixelplay/data/service/player/TitanEqCore.kt:13-22 | a filter whose coefficients are all 0 (as constructed) outputs 0 for every input, whatever its history |
| TitanEq.FlatStepIsTransparent | app/src/main/java/com/theveloper/pixelplay/data/service/player/TitanEqCore.kt:51 | one step of a unit-gain filter (b0 = 1, b1 = a1, b2 = a2) from a history whose outputs equal its inputs returns the input and keeps that property |
| TitanEq.FlatFilterIsTransparent | app/src/main/java/com/theveloper/pixelplay/data/service/player/TitanEqCore.kt:50-57 | a unit-gain filter started from such a history passes every signal through unchanged |
| TitanEq.RawPeakingEq | app/src/main/java/com/theveloper/pixelplay/data/service/player/TitanEqCore.kt:27-37 | the unnormalised peaking-EQ design with A = 10^(gain/40), w0 = 2π·f/fs, alpha = sin(w0)/(2q); related to the stored coefficients by `PeakingIsNormalisedDesign` |
| TitanEq.PeakingEq | app/src/main/java/com/theveloper/pixelplay/data/service/player/TitanEqCore.kt:27-45 | the stored coefficients, each raw value divided by a0Raw; proved a normalised design by `PeakingIsNormalisedDesign` and flat at 0 dB by `ZeroGainBandIsFlat` |
| TitanEq.PeakingIsNormalisedDesign | app/src/main/java/com/theveloper/pixelplay/data/service/player/TitanEqCore.kt:27-45 | each stored coefficient times a0Raw is its raw value, and b1 = a1 (both raw values are -2·cos(w0)) |
| TitanEq.ZeroGainBandIsFlat | app/src/main/java/com/theveloper/pixelplay/data/service/player/TitanEqCore.kt:27-45 | a 0 dB peaking band has unit-gain coefficients, given pow(10, 0) = 1 |
| TitanEq.ZeroGainBandIsTransparent | app/src/main/java/com/theveloper/pixelplay/data/service/player/TitanEqCore.kt:27-57 | a 0 dB band configured on a silent filter passes every signal through unchanged |
| TitanEq.BiquadFilter.constructor | app/src/main/java/com/theveloper/pixelplay/data/service/player/TitanEqCore.kt:13-22 | a new filter holds all-zero coefficients and history |
| TitanEq.BiquadFilter.ConfigurePeakingEq | app/src/main/java/com/theveloper/pixelplay/data/service/player/TitanEqCore.kt:27-45 | the five coefficients become the peaking design divided by a0Raw; the history is untouched |
| TitanEq.BiquadFilter.Process | app/src/main/java/com/theveloper/pixelplay/data/service/player/TitanEqCore.kt:50-57 | returns b0·x + b1·x1 + b2·x2 - a1·y1 - a2·y2 and shifts the history, as `Step` |
| TitanEq.BiquadFilter.Reset | app/src/main/java/com/theveloper/pixelplay/data/service/player/TitanEqCore.kt:62-67 | zeroes x1, x2, y1, y2 and keeps the coefficients |
| TitanEq.CascadeUpTo | app/src/main/java/com/theveloper/pixelplay/data/service/player/TitanEqCore.kt:110-118 | the cascade keeps one filter state per slot |
| TitanEq.Cascade | app/src/main/java/com/theveloper/pixelplay/data/service/player/TitanEqCore.kt:110-128 | `processL`/`processR` on values: the sample runs through the enabled slots below min(bands, numBands) in ascending order; characterised by `CascadeFollowsEnabledSlots`, `CascadeIgnoresDisabledSlots` and `CascadeTouchesOnlyEnabled` |
| TitanEq.CascadeTouchesOnlyEnabled | app/src/main/java/com/theveloper/pixelplay/data/service/player/TitanEqCore.kt:112-116 | only the filters of enabled slots below the bound change; with no enabled slot the sample comes out unchanged |
| TitanEq.EnabledSlots | app/src/main/java/com/theveloper/pixelplay/data/service/player/TitanEqCore.kt:112-113 | exactly the enabled slot indices below n, strictly ascending |
| TitanEq.FoldSlots | app/src/main/java/com/theveloper/pixelplay/data/service/player/TitanEqCore.kt:112-116 | reference fold over a list of slots keeps one state per slot |
| TitanEq.CascadeFollowsEnabledSlots | app/src/main/java/com/theveloper/pixelplay/data/service/player/TitanEqCore.kt:110-118 | the cascade is the fold through exactly the enabled slots, in ascending order |
| TitanEq.CascadeIgnoresDisabledSlots | app/src/main/java/com/theveloper/pixelplay/data/service/player/TitanEqCore.kt:112-116 | the output and the enabled filters do not depend on what disabled slots hold |
| TitanEq.CascadeKeepsDisabledSilent | app/src/main/java/com/theveloper/pixelplay/data/service/player/TitanEqCore.kt:110-128 | a cascade never disturbs the silent history of a disabled slot |
| TitanEq.SetupSlot | app/src/main/java/com/theveloper/pixelplay/data/service/player/TitanEqCore.kt:96-103 | one slot of `setup`: an enabled band gets its peaking design with the history kept, a disabled one keeps its coefficients and has its history zeroed |
| TitanEq.ConfigurePrefix | app/src/main/java/com/theveloper/pixelplay/data/service/player/TitanEqCore.kt:95-104 | the first n setup iterations keep one state per slot |
| TitanEq.ConfigurePrefixSlots | app/src/main/java/com/theveloper/pixelplay/data/service/player/TitanEqCore.kt:95-104 | slots below n are set up (configured if enabled, reset if not); the others are left alone |
| TitanEq.Configure | app/src/main/java/com/theveloper/pixelplay/data/service/player/TitanEqCore.kt:92-105 | `setup` on one side: the first min(bands, numBands) slots are set up from their bands, the rest are untouched; characterised by `SetupShapesSlots` and `SetupSilencesDisabledSlots` |
| TitanEq.SetupShapesSlots | app/src/main/java/com/theveloper/pixelplay/data/service/player/TitanEqCore.kt:92-105 | after `setup`, both sides of an enabled slot carry the same peaking design and keep their history; a disabled slot keeps its coefficients with a zeroed history; slots at or beyond min(numBands, bands.size) are unchanged |
| TitanEq.SetupSilencesDisabledSlots | app/src/main/java/com/theveloper/pixelplay/data/service/player/TitanEqCore.kt:100-103 | after `setup` every disabled slot it reached is silent |
| TitanEq.ResetAll | app/src/main/java/com/theveloper/pixelplay/data/service/player/TitanEqCore.kt:133-136 | reset keeps the number of filters |
| TitanEq.ResetKeepsCoefficients | app/src/main/java/com/theveloper/pixelplay/data/service/player/TitanEqCore.kt:133-136 | reset keeps every coefficient and silences every slot, enabled or not |
| TitanEq.NewFilters | app/src/main/java/com/theveloper/pixelplay/data/service/player/TitanEqCore.kt:85-86 | allocates n distinct new filters, all unconfigured |
| TitanEq.NewBanks | app/src/main/java/com/theveloper/pixelplay/data/service/player/TitanEqCore.kt:85-86 | the two sides are fresh, disjoint, of n slots each, all unconfigured |
| TitanEq.CascadeBank | app/src/main/java/com/theveloper/pixelplay/data/service/player/TitanEqCore.kt:110-118 | the loop over one side's array computes `CascadeUpTo` on the filters' values |
| TitanEq.SetupSlotOn | app/src/main/java/com/theveloper/pixelplay/data/service/player/TitanEqCore.kt:96-103 | one side of one setup iteration changes only slot i, as `SetupSlot` says |
| TitanEq.SetupSlotPair | app/src/main/java/com/theveloper/pixelplay/data/service/player/TitanEqCore.kt:96-103 | one setup iteration changes slot i on both sides alike |
| TitanEq.SetupBanks | app/src/main/java/com/theveloper/pixelplay/data/service/player/TitanEqCore.kt:95-104 | the setup loop computes `ConfigurePrefix` on both sides |
| TitanEq.ResetBank | app/src/main/java/com/theveloper/pixelplay/data/service/player/TitanEqCore.kt:134-135 | the reset loop over one side computes `ResetAll` |
| TitanEq.TitanEqCore.constructor | app/src/main/java/com/theveloper/pixelplay/data/service/player/TitanEqCore.kt:84-87 | numBands unconfigured filters per side, no bands; both filter banks are freshly allocated and disjoint, so the new core can be set up, run and reset |
| TitanEq.TitanEqCore.Setup | app/src/main/java/com/theveloper/pixelplay/data/service/player/TitanEqCore.kt:92-105 | `currentBands` becomes the new list and both sides become `Configure` of their old values |
| TitanEq.TitanEqCore.ProcessL | app/src/main/java/com/theveloper/pixelplay/data/service/player/TitanEqCore.kt:110-118 | output and left filters are the cascade over min(bands.size, numBands) slots; the right filters are unchanged |
| TitanEq.TitanEqCore.ProcessR | app/src/main/java/com/theveloper/pixelplay/data/service/player/TitanEqCore.kt:120-128 | the mirror image of `ProcessL` |
| TitanEq.TitanEqCore.Reset | app/src/main/java/com/theveloper/pixelplay/data/service/player/TitanEqCore.kt:133-136 | both sides become `ResetAll` of their old values |
| TitanAudio.DbToLinear | app/src/main/java/com/theveloper/pixelplay/data/service/player/TitanAudioProcessor.kt:27-36 | a level in decibels as the linear gain 10^(db/20), as `setPreAmp` and `setReplayGain` compute it; the test's 20 dB and 6.0206 dB levels enter `PeakLimiterExample` and `PreAmpGainExample` through it |
| TitanAudio.TotalGain | app/src/main/java/com/theveloper/pixelplay/data/service/player/TitanAudioProcessor.kt:73 | the gain every sample receives is pre-amp × ReplayGain, fixed for the whole buffer |
| TitanAudio.OnConfigure | app/src/main/java/com/theveloper/pixelplay/data/service/player/TitanAudioProcessor.kt:55-62 | same sample rate and channel count, float encoding, for any input encoding |
| TitanAudio.OnConfigureIsIdempotent | app/src/main/java/com/theveloper/pixelplay/data/service/player/TitanAudioProcessor.kt:55-62 | configuring twice equals once; a format is kept exactly when it is already float |
| TitanAudio.Clamp | app/src/main/java/com/theveloper/pixelplay/data/service/player/TitanAudioProcessor.kt:88 | the result lies in [-1, 1], equals the input exactly when the input does, and is -1 or 1 beyond |
| TitanAudio.ClampIsMonotoneAndIdempotent | app/src/main/java/com/theveloper/pixelplay/data/service/player/TitanAudioProcessor.kt:88 | the limiter is idempotent and order-preserving |
| TitanAudio.SampleStep | app/src/main/java/com/theveloper/pixelplay/data/service/player/TitanAudioProcessor.kt:80-88 | one sample: gain, then the cascade of its channel's side when EQ is on, then the limiter; the output lies in [-1, 1], EQ off leaves both sides' filters unchanged, and an even channel never touches the right filters nor an odd one the left |
| TitanAudio.RunChain | app/src/main/java/com/theveloper/pixelplay/data/service/player/TitanAudioProcessor.kt:76-91 | one output per input sample, every output in [-1, 1] |
| TitanAudio.RunChainStep | app/src/main/java/com/theveloper/pixelplay/data/service/player/TitanAudioProcessor.kt:76-91 | sample pos is processed after samples 0..pos-1, as channel pos mod channelCount |
| TitanAudio.EqOffIsGainThenLimit | app/src/main/java/com/theveloper/pixelplay/data/service/player/TitanAudioProcessor.kt:80-88 | with EQ off, output k is clamp(input k × gain) and no filter changes |
| TitanAudio.MonoLeavesRightUntouched | app/src/main/java/com/theveloper/pixelplay/data/service/player/TitanAudioProcessor.kt:82-85 | with one channel the right filters never change |
| TitanAudio.LeftChannelsAreIsolated | app/src/main/java/com/theveloper/pixelplay/data/service/player/TitanAudioProcessor.kt:82-85 | even-channel outputs and the left filters depend only on even-channel samples, not on odd channels or the right filters |
| TitanAudio.FlushForgetsHistory | app/src/main/java/com/theveloper/pixelplay/data/service/player/TitanAudioProcessor.kt:96-102 | after a flush the output depends only on the coefficients, not on audio heard before |
| TitanAudio.PeakLimiterExample | app/src/test/java/com/theveloper/pixelplay/data/service/player/TitanAudioProcessorTest.kt:48-63 | at a 10× pre-amp, 0.5 and -0.5 come out as exactly 1.0 and -1.0 |
| TitanAudio.PreAmpGainExample | app/src/test/java/com/theveloper/pixelplay/data/service/player/TitanAudioProcessorTest.kt:21-38 | at a 2× pre-amp the stereo frame 0.4, 0.4 comes out as 0.8, 0.8 |
| TitanAudio.TitanAudioProcessor.constructor | app/src/main/java/com/theveloper/pixelplay/data/service/player/TitanAudioProcessor.kt:18-22 | unit gains, EQ off, no bands, 32 unconfigured slots per side; the equaliser and its filters are freshly allocated, so every setter and `queueInput`/`onFlush`/`onReset` can be called on the new processor |
| TitanAudio.TitanAudioProcessor.SetPreAmp | app/src/main/java/com/theveloper/pixelplay/data/service/player/TitanAudioProcessor.kt:27-29 | the pre-amp becomes 10^(db/20); nothing else changes |
| TitanAudio.TitanAudioProcessor.SetReplayGain | app/src/main/java/com/theveloper/pixelplay/data/service/player/TitanAudioProcessor.kt:34-36 | the ReplayGain becomes 10^(db/20); nothing else changes |
| TitanAudio.TitanAudioProcessor.SetEqEnabled | app/src/main/java/com/theveloper/pixelplay/data/service/player/TitanAudioProcessor.kt:41-43 | sets the switch; nothing else changes |
| TitanAudio.TitanAudioProcessor.SetEqBands | app/src/main/java/com/theveloper/pixelplay/data/service/player/TitanAudioProcessor.kt:48-53 | `bands` is replaced; only an active processor sets up the equaliser with it, otherwise the equaliser is unchanged |
| TitanAudio.TitanAudioProcessor.ProcessSample | app/src/main/java/com/theveloper/pixelplay/data/service/player/TitanAudioProcessor.kt:80-88 | one sample: gain, then the left or right cascade by channel parity when EQ is on, then the limiter |
| TitanAudio.TitanAudioProcessor.QueueInput | app/src/main/java/com/theveloper/pixelplay/data/service/player/TitanAudioProcessor.kt:64-94 | the nested loop computes `RunChain` with the gain read once: outputs and both filter sides; empty input gives empty output |
| TitanAudio.TitanAudioProcessor.OnFlush | app/src/main/java/com/theveloper/pixelplay/data/service/player/TitanAudioProcessor.kt:96-98 | every filter history is zeroed; coefficients are kept |
| TitanAudio.TitanAudioProcessor.OnReset | app/src/main/java/com/theveloper/pixelplay/data/service/player/TitanAudioProcessor.kt:100-102 | the same as a flush |
| Waveform.LittleEndian | app/src/main/java/com/theveloper/pixelplay/data/database/WaveformEntity.kt:38-39 | a float is written as four bytes |
| Waveform.WordRoundTrip | app/src/main/java/com/theveloper/pixelplay/data/database/WaveformEntity.kt:38-49 | reading back the four bytes of a float gives its bits |
| Waveform.BytesRoundTrip | app/src/main/java/com/theveloper/pixelplay/data/database/WaveformEntity.kt:38-49 | writing the float read from four bytes gives those bytes |
| Waveform.Encode | app/src/main/java/com/theveloper/pixelplay/data/database/WaveformEntity.kt:38-40 | the blob has exactly 4·n bytes |
| Waveform.EncodeSlot | app/src/main/java/com/theveloper/pixelplay/data/database/WaveformEntity.kt:38-40 | bytes 4i..4i+3 are float i, least-significant byte first |
| Waveform.Decode | app/src/main/java/com/theveloper/pixelplay/data/database/WaveformEntity.kt:46-51 | reads ⌊bytes/4⌋ floats |
| Waveform.DecodeEncode | app/src/main/java/com/theveloper/pixelplay/data/database/WaveformEntity.kt:36-52 | `toFloatArray(fromFloatArray(a))` is a, bit for bit |
| Waveform.EncodeDecode | app/src/main/java/com/theveloper/pixelplay/data/database/WaveformEntity.kt:36-52 | `fromFloatArray(toFloatArray(b))` is b when b's length is a multiple of 4 |
| Waveform.TrailingBytesIgnored | app/src/main/java/com/theveloper/pixelplay/data/database/WaveformEntity.kt:47 | one to three trailing bytes do not change what is read |
| Waveform.FromFloatArray | app/src/main/java/com/theveloper/pixelplay/data/database/WaveformEntity.kt:36-41 | null for null, otherwise a new array holding `Encode` of the input |
| Waveform.ToFloatArray | app/src/main/java/com/theveloper/pixelplay/data/database/WaveformEntity.kt:44-52 | null for null, otherwise a new array holding `Decode` of the input |
| Waveform.FloatToIntBitsIdentifies | app/src/main/java/com/theveloper/pixelplay/data/database/WaveformEntity.kt:23 | two floats have equal `floatToIntBits` exactly when their bits are equal or both are NaN, so `contentEquals` identifies all NaNs and nothing else |
| Waveform.LongHash | app/src/main/java/com/theveloper/pixelplay/data/database/WaveformEntity.kt:28 | a 32-bit hash value |
| Waveform.ContentHash | app/src/main/java/com/theveloper/pixelplay/data/database/WaveformEntity.kt:29 | a 32-bit hash value |
| Waveform.HashCode | app/src/main/java/com/theveloper/pixelplay/data/database/WaveformEntity.kt:27-31 | a 32-bit hash value |
| Waveform.ContentEquals | app/src/main/java/com/theveloper/pixelplay/data/database/WaveformEntity.kt:23 | `contentEquals`: equal lengths and element-wise equal `floatToIntBits`; related to the hash by `ContentEqualsSameHash` |
| Waveform.Equals | app/src/main/java/com/theveloper/pixelplay/data/database/WaveformEntity.kt:18-25 | `equals`: the other object is a `WaveformEntity` with the same song id and content-equal amplitudes; an equivalence by `EqualsIsEquivalence` |
| Waveform.EqualsIsEquivalence | app/src/main/java/com/theveloper/pixelplay/data/database/WaveformEntity.kt:18-25 | `equals` is reflexive, symmetric and transitive, and false for null and other classes |
| Waveform.ContentEqualsSameHash | app/src/main/java/com/theveloper/pixelplay/data/database/WaveformEntity.kt:23-29 | arrays with equal contents have equal content hashes |
| Waveform.EqualEntitiesHashAlike | app/src/main/java/com/theveloper/pixelplay/data/database/WaveformEntity.kt:18-31 | equal entities have equal `hashCode` |
| Waveform.EqualityExamples | app/src/main/java/com/theveloper/pixelplay/data/database/WaveformEntity.kt:23 | two different NaN patterns compare equal, 0.0 and -0.0 do not |
| Scrubber.BucketMean | app/src/main/java/com/theveloper/pixelplay/presentation/components/player/WaveformScrubber.kt:152-156 | the mean of a bar's samples, or 0 for an empty bar; bounded by `MeanWithin` |
| Scrubber.Downsampled | app/src/main/java/com/theveloper/pixelplay/presentation/components/player/WaveformScrubber.kt:145-159 | `downsample` on values: the input itself when it has at most `targetSize` samples, otherwise one mean per bar over the exact-floor bars; `Downsample` computes it and `DownsampledWithinRange` bounds it |
| Scrubber.BucketBounds | app/src/main/java/com/theveloper/pixelplay/presentation/components/player/WaveformScrubber.kt:148-151 | every bucket lies inside the input, and the cap at the input size never bites |
| Scrubber.BucketsTile | app/src/main/java/com/theveloper/pixelplay/presentation/components/player/WaveformScrubber.kt:148-151 | the first bucket starts at 0, each ends where the next starts, the last ends at n |
| Scrubber.BucketsNonEmpty | app/src/main/java/com/theveloper/pixelplay/presentation/components/player/WaveformScrubber.kt:148-151 | with more values than bars, no bucket is empty |
| Scrubber.SumBounds | app/src/main/java/com/theveloper/pixelplay/presentation/components/player/WaveformScrubber.kt:152-155 | a sum of k values in [lo, hi] lies in [k·lo, k·hi] |
| Scrubber.MeanWithin | app/src/main/java/com/theveloper/pixelplay/presentation/components/player/WaveformScrubber.kt:156 | such a sum divided by k lies in [lo, hi] |
| Scrubber.BarWithinRange | app/src/main/java/com/theveloper/pixelplay/presentation/components/player/WaveformScrubber.kt:149-156 | one bar lies within the input's range |
| Scrubber.DownsampledWithinRange | app/src/main/java/com/theveloper/pixelplay/presentation/components/player/WaveformScrubber.kt:145-159 | the result has n entries when n ≤ target, else target entries, all within the input's range |
| Scrubber.Downsample | app/src/main/java/com/theveloper/pixelplay/presentation/components/player/WaveformScrubber.kt:145-159 | returns the input array itself when it fits, else a new array of the bucket means (0 for an empty bucket); the input is only read |
| Scrubber.Progress | app/src/main/java/com/theveloper/pixelplay/presentation/components/player/WaveformScrubber.kt:56 | x / width clamped to [0, 1], as in the press, drag-start (line 67) and drag (line 72) handlers: exact inside, 0 left of the bar, 1 right of it |
| Scrubber.ProgressIsMonotone | app/src/main/java/com/theveloper/pixelplay/presentation/components/player/WaveformScrubber.kt:72 | moving the finger right never moves the progress left |
| Scrubber.ScrubberGesture.constructor | app/src/main/java/com/theveloper/pixelplay/presentation/components/player/WaveformScrubber.kt:31-32 | not dragging, progress 0 |
| Scrubber.ScrubberGesture.DisplayProgress | app/src/main/java/com/theveloper/pixelplay/presentation/components/player/WaveformScrubber.kt:35 | the player's progress unless dragging; within [0, 1] when its inputs are |
| Scrubber.ScrubberGesture.Press | app/src/main/java/com/theveloper/pixelplay/presentation/components/player/WaveformScrubber.kt:54-68 | dragging starts at the clamped touch position |
| Scrubber.ScrubberGesture.Release | app/src/main/java/com/theveloper/pixelplay/presentation/components/player/WaveformScrubber.kt:58-59 | dragging stops and the last position, in [0, 1], is reported |
| Scrubber.ScrubberGesture.EndDrag | app/src/main/java/com/theveloper/pixelplay/presentation/components/player/WaveformScrubber.kt:69-70 | dragging stops; the position is kept |
| Scrubber.ScrubberGesture.Drag | app/src/main/java/com/theveloper/pixelplay/presentation/components/player/WaveformScrubber.kt:71-74 | follows the finger, clamped, and reports the new position |
| Text.IsWhitespace | app/src/main/java/com/theveloper/pixelplay/data/model/LibraryModels.kt:50 | the JVM's `Char.isWhitespace` table, written out |
| Text.IsBlank | app/src/main/java/com/theveloper/pixelplay/data/model/LibraryModels.kt:50 | `isBlank`: empty or whitespace only; a lone space is blank by `BlankCustomImageFallsThrough` |
| Text.StrLe | app/src/main/java/com/theveloper/pixelplay/presentation/viewmodel/ArtistDetailViewModel.kt:265 | `compareTo(…) <= 0` on strings: the first differing character decides and a proper prefix comes first; a total order by `StrLeTotal` and `StrLeTransitive` |
| Text.StrLeTotal | app/src/main/java/com/theveloper/pixelplay/presentation/viewmodel/ArtistDetailViewModel.kt:265 | string order is total and antisymmetric |
| Text.StrLeTransitive | app/src/main/java/com/theveloper/pixelplay/presentation/viewmodel/ArtistDetailViewModel.kt:265 | string order is transitive |
| Sorting.KeyLeTotal | app/src/main/java/com/theveloper/pixelplay/presentation/viewmodel/ArtistDetailViewModel.kt:263-265 | the two-level comparator is total and antisymmetric |
| Sorting.KeyLeTransitive | app/src/main/java/com/theveloper/pixelplay/presentation/viewmodel/ArtistDetailViewModel.kt:263-265 | the two-level comparator is transitive |
| Sorting.Insert | app/src/main/java/com/theveloper/pixelplay/presentation/viewmodel/ArtistDetailViewModel.kt:273 | inserts one element after every element whose key is not greater; permutation and sortedness by `InsertIsPermutation` and `InsertKeepsSorted` |
| Sorting.SortBy | app/src/main/java/com/theveloper/pixelplay/presentation/viewmodel/ArtistDetailViewModel.kt:273 | `sortedWith` by insertion; a sorted, stable permutation by `SortByIsPermutation`, `SortByIsSorted` and `SortByIsStable` |
| Sorting.InsertIsPermutation | app/src/main/java/com/theveloper/pixelplay/presentation/viewmodel/ArtistDetailViewModel.kt:273 | inserting adds exactly the one element |
| Sorting.SortByIsPermutation | app/src/main/java/com/theveloper/pixelplay/presentation/viewmodel/ArtistDetailViewModel.kt:273 | `sortedWith` loses and adds nothing |
| Sorting.InsertKeepsSorted | app/src/main/java/com/theveloper/pixelplay/presentation/viewmodel/ArtistDetailViewModel.kt:273 | inserting into a sorted list keeps it sorted |
| Sorting.SortByIsSorted | app/src/main/java/com/theveloper/pixelplay/presentation/viewmodel/ArtistDetailViewModel.kt:273 | the result of `sortedWith` is sorted by the comparator |
| Sorting.WithKeyConcat | app/src/main/java/com/theveloper/pixelplay/presentation/viewmodel/ArtistDetailViewModel.kt:273 | selecting one key distributes over concatenation |
| Sorting.InsertWithKey | app/src/main/java/com/theveloper/pixelplay/presentation/viewmodel/ArtistDetailViewModel.kt:273 | an inserted element goes after every element with an equal key |
| Sorting.NoneBelowKey | app/src/main/java/com/theveloper/pixelplay/presentation/viewmodel/ArtistDetailViewModel.kt:273 | a sorted list starting above a key holds nothing with that key |
| Sorting.SortedPairwise | app/src/main/java/com/theveloper/pixelplay/presentation/viewmodel/ArtistDetailViewModel.kt:273 | in a sorted list every key is at most every later key |
| Sorting.SortByIsStable | app/src/main/java/com/theveloper/pixelplay/presentation/viewmodel/ArtistDetailViewModel.kt:273 | elements with equal keys keep their input order |
| ArtistDetail.Filter | app/src/main/java/com/theveloper/pixelplay/presentation/viewmodel/ArtistDetailViewModel.kt:251 | `filter`: the elements satisfying the predicate, in order; characterised by `FilterMembers` and `FilterPermutation` |
| ArtistDetail.Flatten | app/src/main/java/com/theveloper/pixelplay/presentation/viewmodel/ArtistDetailViewModel.kt:117 | the songs of the sections concatenated in section order; a permutation of the input by `FlattenPermutation` |
| ArtistDetail.FilterMembers | app/src/main/java/com/theveloper/pixelplay/presentation/viewmodel/ArtistDetailViewModel.kt:251 | filtering keeps exactly the elements satisfying the predicate |
| ArtistDetail.FilterConcat | app/src/main/java/com/theveloper/pixelplay/presentation/viewmodel/ArtistDetailViewModel.kt:251 | filtering keeps order: it distributes over concatenation |
| ArtistDetail.FilterSnoc | app/src/main/java/com/theveloper/pixelplay/presentation/viewmodel/ArtistDetailViewModel.kt:270-272 | filtering a list with one more element adds at most that element at the end |
| ArtistDetail.FilterKeepsAll | app/src/main/java/com/theveloper/pixelplay/presentation/viewmodel/ArtistDetailViewModel.kt:251 | filtering removes nothing that satisfies the predicate |
| ArtistDetail.FilterDropsAll | app/src/main/java/com/theveloper/pixelplay/presentation/viewmodel/ArtistDetailViewModel.kt:270-272 | filtering a list with no match gives nothing |
| ArtistDetail.FilterPermutation | app/src/main/java/com/theveloper/pixelplay/presentation/viewmodel/ArtistDetailViewModel.kt:257 | filtering two orderings of the same songs keeps them orderings of each other |
| ArtistDetail.FlattenConcat | app/src/main/java/com/theveloper/pixelplay/presentation/viewmodel/ArtistDetailViewModel.kt:117 | `flatMap` distributes over concatenation |
| ArtistDetail.FlattenPermutation | app/src/main/java/com/theveloper/pixelplay/presentation/viewmodel/ArtistDetailViewModel.kt:117 | reordering sections reorders their songs without losing or adding any |
| ArtistDetail.SongOrder | app/src/main/java/com/theveloper/pixelplay/presentation/viewmodel/ArtistDetailViewModel.kt:263-265 | `songDisplayComparator`: track number when positive else `Int.MAX_VALUE`, then the lowercased title; its meaning is `SongsInDisplayOrder` |
| ArtistDetail.SongsInDisplayOrder | app/src/main/java/com/theveloper/pixelplay/presentation/viewmodel/ArtistDetailViewModel.kt:263-273 | positive track numbers ascend; a non-positive one sorts after every positive one below `Int.MAX_VALUE`; ties go by lower-cased title |
| ArtistDetail.AddSong | app/src/main/java/com/theveloper/pixelplay/presentation/viewmodel/ArtistDetailViewModel.kt:270-271 | one step of `groupBy`: the song joins the group of its (albumId, album) key, or opens a new group at the end; stated by `AddToGroup` and `OpenGroup` |
| ArtistDetail.GroupBy | app/src/main/java/com/theveloper/pixelplay/presentation/viewmodel/ArtistDetailViewModel.kt:270-271 | `groupBy { albumId to album }`; one group per distinct key holding exactly that key's songs in input order by `GroupByGroups` and `GroupByKeepsSongs` |
| ArtistDetail.FindGroup | app/src/main/java/com/theveloper/pixelplay/presentation/viewmodel/ArtistDetailViewModel.kt:270-271 | finds the group with the key, or reports that none has it |
| ArtistDetail.GroupedAppend | app/src/main/java/com/theveloper/pixelplay/presentation/viewmodel/ArtistDetailViewModel.kt:270-271 | adding a song to a group adds exactly that song |
| ArtistDetail.GroupedSnoc | app/src/main/java/com/theveloper/pixelplay/presentation/viewmodel/ArtistDetailViewModel.kt:270-271 | opening a group adds exactly its songs |
| ArtistDetail.AddToGroup | app/src/main/java/com/theveloper/pixelplay/presentation/viewmodel/ArtistDetailViewModel.kt:270-271 | a song whose album already has a group extends the grouping |
| ArtistDetail.OpenGroup | app/src/main/java/com/theveloper/pixelplay/presentation/viewmodel/ArtistDetailViewModel.kt:270-271 | a song of a new album opens a group and extends the grouping |
| ArtistDetail.GroupByGroups | app/src/main/java/com/theveloper/pixelplay/presentation/viewmodel/ArtistDetailViewModel.kt:270-271 | `groupBy` gives distinct keys, non-empty groups each holding exactly its key's songs in input order, and a group for every song |
| ArtistDetail.GroupByKeepsSongs | app/src/main/java/com/theveloper/pixelplay/presentation/viewmodel/ArtistDetailViewModel.kt:270-271 | `groupBy` loses and duplicates no song |
| ArtistDetail.MaxPositiveYear | app/src/main/java/com/theveloper/pixelplay/presentation/viewmodel/ArtistDetailViewModel.kt:274 | null iff no song has a positive year; otherwise a positive year some song has, at least every positive year |
| ArtistDetail.FirstArt | app/src/main/java/com/theveloper/pixelplay/presentation/viewmodel/ArtistDetailViewModel.kt:275 | null iff no song has an art URI |
| ArtistDetail.FirstArtIsFirst | app/src/main/java/com/theveloper/pixelplay/presentation/viewmodel/ArtistDetailViewModel.kt:275 | a found URI is that of the first song having one |
| ArtistDetail.SectionTitle | app/src/main/java/com/theveloper/pixelplay/presentation/viewmodel/ArtistDetailViewModel.kt:278 | the album name, or "Unknown Album" when it is blank |
| ArtistDetail.MakeSection | app/src/main/java/com/theveloper/pixelplay/presentation/viewmodel/ArtistDetailViewModel.kt:272-282 | one `ArtistAlbumSection` from one group: sorted songs, largest positive year, first art, titled album; stated by `MakeSectionFacts` |
| ArtistDetail.MakeSectionFacts | app/src/main/java/com/theveloper/pixelplay/presentation/viewmodel/ArtistDetailViewModel.kt:272-282 | a section has its group's album id and title, year and art as above, and the group's songs sorted for display |
| ArtistDetail.SectionsOf | app/src/main/java/com/theveloper/pixelplay/presentation/viewmodel/ArtistDetailViewModel.kt:272-283 | one section per group |
| ArtistDetail.SectionsKeepSongs | app/src/main/java/com/theveloper/pixelplay/presentation/viewmodel/ArtistDetailViewModel.kt:272-283 | the sections hold exactly the grouped songs |
| ArtistDetail.DatedOrder | app/src/main/java/com/theveloper/pixelplay/presentation/viewmodel/ArtistDetailViewModel.kt:286-289 | the dated comparator: year descending, then lowercased title |
| ArtistDetail.TitleOrder | app/src/main/java/com/theveloper/pixelplay/presentation/viewmodel/ArtistDetailViewModel.kt:290 | the undated comparator: lowercased title |
| ArtistDetail.OrderSections | app/src/main/java/com/theveloper/pixelplay/presentation/viewmodel/ArtistDetailViewModel.kt:285-292 | dated sections sorted by `DatedOrder`, then undated ones by `TitleOrder`; a permutation by `OrderSectionsPermutes`, in order by `OrderSectionsOrders` |
| ArtistDetail.FilterSplitPermutes | app/src/main/java/com/theveloper/pixelplay/presentation/viewmodel/ArtistDetailViewModel.kt:285 | `partition` loses and adds nothing |
| ArtistDetail.OrderSectionsPermutes | app/src/main/java/com/theveloper/pixelplay/presentation/viewmodel/ArtistDetailViewModel.kt:285-292 | ordering the sections loses and adds none |
| ArtistDetail.SortedFilterMembers | app/src/main/java/com/theveloper/pixelplay/presentation/viewmodel/ArtistDetailViewModel.kt:285-290 | a sorted partition half holds only input sections satisfying its predicate |
| ArtistDetail.OrderSectionsOrders | app/src/main/java/com/theveloper/pixelplay/presentation/viewmodel/ArtistDetailViewModel.kt:285-292 | dated sections first, sorted by the dated comparator; undated after, sorted by title |
| ArtistDetail.DatedInOrder | app/src/main/java/com/theveloper/pixelplay/presentation/viewmodel/ArtistDetailViewModel.kt:286-289 | newer year first; same year by lower-cased title |
| ArtistDetail.UndatedInOrder | app/src/main/java/com/theveloper/pixelplay/presentation/viewmodel/ArtistDetailViewModel.kt:290 | by lower-cased title |
| ArtistDetail.BuildAlbumSections | app/src/main/java/com/theveloper/pixelplay/presentation/viewmodel/ArtistDetailViewModel.kt:268 | no songs give no sections |
| ArtistDetail.BuildAlbumSectionsPartitions | app/src/main/java/com/theveloper/pixelplay/presentation/viewmodel/ArtistDetailViewModel.kt:267-293 | one section per distinct (albumId, album) key, and every song in exactly one section |
| ArtistDetail.SectionOfAlbum | app/src/main/java/com/theveloper/pixelplay/presentation/viewmodel/ArtistDetailViewModel.kt:270-283 | every section is built from exactly the input songs of one album key |
| ArtistDetail.DatedPartInOrder | app/src/main/java/com/theveloper/pixelplay/presentation/viewmodel/ArtistDetailViewModel.kt:286-292 | in the concatenation, dated sections precede and descend by year, then title |
| ArtistDetail.UndatedPartInOrder | app/src/main/java/com/theveloper/pixelplay/presentation/viewmodel/ArtistDetailViewModel.kt:290-292 | in the concatenation, undated sections come last, by title |
| ArtistDetail.BuildAlbumSectionsOrder | app/src/main/java/com/theveloper/pixelplay/presentation/viewmodel/ArtistDetailViewModel.kt:285-292 | every dated section precedes every undated one, dated by descending year then title, undated by title |
| ArtistDetail.LoadedState | app/src/main/java/com/theveloper/pixelplay/presentation/viewmodel/ArtistDetailViewModel.kt:116-154 | the published songs are the sections' songs in section order, exactly the input songs; not loading, no error |
| ArtistDetail.LoadedArtistShowsResolvedImage | app/src/main/java/com/theveloper/pixelplay/presentation/viewmodel/ArtistDetailViewModel.kt:146-149 | the published artist shows its custom image if it has one, otherwise the resolved one |
| ArtistDetail.RemoveFromSections | app/src/main/java/com/theveloper/pixelplay/presentation/viewmodel/ArtistDetailViewModel.kt:250-253 | drops the song from every section, then drops the sections left empty; stated by `RemovalLeavesNoTrace`, `SurvivorComesFromInput` and `FlattenAfterRemove` |
| ArtistDetail.RemovalLeavesNoTrace | app/src/main/java/com/theveloper/pixelplay/presentation/viewmodel/ArtistDetailViewModel.kt:250-253 | no remaining section is empty or holds the song |
| ArtistDetail.SurvivorComesFromInput | app/src/main/java/com/theveloper/pixelplay/presentation/viewmodel/ArtistDetailViewModel.kt:250-253 | every remaining section is an input section minus that song |
| ArtistDetail.RemoveFromSectionsConcat | app/src/main/java/com/theveloper/pixelplay/presentation/viewmodel/ArtistDetailViewModel.kt:250-253 | the survivors keep their relative order |
| ArtistDetail.FlattenAfterRemove | app/src/main/java/com/theveloper/pixelplay/presentation/viewmodel/ArtistDetailViewModel.kt:250-253 | the remaining sections' songs are the old ones without the song |
| ArtistDetail.RemoveAbsentSong | app/src/main/java/com/theveloper/pixelplay/presentation/viewmodel/ArtistDetailViewModel.kt:250-253 | removing a song no section holds changes nothing |
| ArtistDetail.RemoveSong | app/src/main/java/com/theveloper/pixelplay/presentation/viewmodel/ArtistDetailViewModel.kt:248-260 | the song list is the old one without the song, no section is empty or holds it, and the other fields are unchanged |
| ArtistDetail.RemoveSongKeepsSongsInSections | app/src/main/java/com/theveloper/pixelplay/presentation/viewmodel/ArtistDetailViewModel.kt:248-260 | if the song list was the sections' songs in order, it stays so |
| ArtistDetail.RemoveSongIsIdempotent | app/src/main/java/com/theveloper/pixelplay/presentation/viewmodel/ArtistDetailViewModel.kt:248-260 | removing the same song twice is removing it once |
| ArtistDetail.RemoveFromLoadedState | app/src/main/java/com/theveloper/pixelplay/presentation/viewmodel/ArtistDetailViewModel.kt:248-260 | after loading and one removal, the songs are exactly the input without it, still in section order |
| Library.EmptyAlbum | app/src/main/java/com/theveloper/pixelplay/data/model/LibraryModels.kt:18-25 | id -1, empty title and artist, year 0, no art, 0 songs |
| Library.EmptyArtist | app/src/main/java/com/theveloper/pixelplay/data/model/LibraryModels.kt:39-45 | id -1, empty name, 0 songs, no images |
| Library.EffectiveImageUrl | app/src/main/java/com/theveloper/pixelplay/data/model/LibraryModels.kt:49-50 | the custom image unless missing or blank, then the looked-up image unless missing or blank; its three cases are `EffectiveImageUrlCases` |
| Library.EffectiveImageUrlCases | app/src/main/java/com/theveloper/pixelplay/data/model/LibraryModels.kt:49-50 | the custom image if non-blank, else the looked-up image if non-blank, else null; a blank custom image falls through |
| Library.EffectiveImageUrlNotBlank | app/src/main/java/com/theveloper/pixelplay/data/model/LibraryModels.kt:49-50 | a chosen image is never blank and is one of the artist's two |
| Library.EmptyArtistHasNoImage | app/src/main/java/com/theveloper/pixelplay/data/model/LibraryModels.kt:39-50 | the placeholder artist has no image |
| Library.BlankCustomImageFallsThrough | app/src/main/java/com/theveloper/pixelplay/data/model/LibraryModels.kt:50 | a whitespace-only custom image does not hide the looked-up image |

## Left out

- Float rounding. `Float` arithmetic is exact `real` arithmetic, so tolerances such as "6.0206 dB ≈ 2×" become assumptions of the example lemmas. The test's "the first EQ output differs from 0.5" depends on concrete `pow`/`sin`/`cos` values and is not stated.
- `pow`, `sin`, `cos` and `PI` are uninterpreted parameters. The value of a float division by zero (an infinity or NaN) is an unspecified function of the dividend.
- The media3 framework. `isActive` and the input format's sample rate and channel count are parameters. `ByteBuffer` handling is not modelled: reading floats from the native-order input, `replaceOutputBuffer`, `flip`, `getOutput`.
- TitanAudio.TitanAudioProcessor.QueueInput: the input is a sequence of floats, not bytes, so a buffer whose byte count is not a multiple of 4 (a `BufferUnderflowException` in the source) is not modelled. The method requires `channelCount >= 1`, because with 0 the source's outer loop never consumes input.
- TitanAudio.TitanAudioProcessor.SetEqBands: bands stored while the processor is inactive reach the equaliser only at a later `setEqBands`. The processing stage reads the core's `currentBands`, which is a snapshot of the list; the source's `TitanEqBand` has mutable fields that a caller could change after `setup`.
- Concurrency. The gain, band and switch fields are written from other threads without synchronisation in the source. The model is sequential.
- There is no peak meter, no 16-bit PCM decoding and no rejection of unsupported encodings, because the source has none. `onConfigure` validates nothing, and a trailing incomplete frame is processed, not discarded.
- Scrubber.Downsample: bucket bounds are exact integer floors ⌊i·n/t⌋. The source computes them as `(i * chunkSize).toInt()` with a `Float` `chunkSize = n / t`, and that rounding can lose one even for small arrays. With n = 13 and t = 11, `13f / 11` rounds down, so 11 × chunkSize is 12.999999 and truncates to 12. The source's last bar is then [11, 12) and `amplitudes[12]` is never read, while the model's last bar is [11, 13). The target size is a natural number: a negative bar count would make the source's `FloatArray` constructor throw.
- Scrubber.BucketBounds, Scrubber.BucketsTile, Scrubber.BucketsNonEmpty, Scrubber.DownsampledWithinRange: these hold of the exact-floor bars only. The source's float bars need not tile the input, as the example above shows.
- Scrubber.Progress: requires a positive width. With width 0 the source divides by zero, and NaN/∞ then pass through `coerceIn`.
- TitanAudio.Clamp: the model's reals have no NaN, so the [-1, 1] bound holds only for non-NaN samples. Kotlin's `coerceIn(-1f, 1f)` returns NaN for NaN. A band with q = 0 and sin(w0) > 0 gives alpha = sin(w0)/0 = ∞ and b0 = ∞/∞ = NaN, and every later output of that side is NaN.
- TitanAudio.SampleStep: its [-1, 1] bound holds only for non-NaN samples, for the reason given for `Clamp`.
- TitanAudio.RunChain: its [-1, 1] bound on every output holds only for non-NaN samples, for the reason given for `Clamp`.
- The scrubber's drawing, animation and colour logic is rendering only. Its gesture callbacks are modelled as the methods of `ScrubberGesture`; `onProgressChange` is modelled as the value the methods return.
- Waveform.LongHash: Kotlin hashes are signed 32-bit `Int`s. The model gives the unsigned value of the same 32 bits, which preserves equality of hashes.
- `String.lowercase` is a parameter `lower`. The model does not apply Unicode case mapping.
- String comparison compares characters as Dafny `char`s. That agrees with Kotlin's UTF-16 `compareTo` except between supplementary-plane characters and surrogate-range code units.
- `Char.isWhitespace` is written out from the JVM's table of whitespace characters.
- Song.kt is not part of this model. `Song` holds only the fields the artist screen reads.
- ArtistDetail.GroupBy: the order of the groups (first occurrence of each album key) is modelled but not stated as a lemma. The final section order is stated through the comparators, and sections that compare equal keep this group order, which is not stated either.
- ArtistDetail.SongsInDisplayOrder: a song whose track number is exactly `Int.MAX_VALUE` ties with songs without a track number and is ordered among them by title. The lemma states only what holds on both sides of that tie.
- The ViewModel's coroutines, `StateFlow`s, repository calls, the image-URL resolution itself (an input `effectiveUrl` here), error states and palette generation are asynchronous I/O or foreign calls.
