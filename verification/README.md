# Oscillators, mixer and PCM sinks of a small audio synthesizer, in Dafny

This project models the signal path of the `audio-synthesizer` scripts:

- the oscillator family of `oscillator-object.py`, covering:
  - the `Oscillator` base, with its property setters, `squish_value` and the
    arming `__iter__`;
  - the Sine, Square, Sawtooth and Triangle oscillators;
- the `WaveAdder` mixer;
- the two sinks:
  - the framing that `WaveWriter.write` hands to the `wave` module;
  - the float buffer the live `WavePlayer.play` builds (the second definition,
    which is the one Python keeps);
- the closed-form `sin_osc_generator` of `oscillator.py`.

Python floats are exact `real`s, and `math.sin` is a parameter `sin: real -> real`.
`math.pi` is the constant `Oscillators.Pi`, 3.141592653589793. This is the
shortest decimal that reads back as the double nearest π (its `repr`), not the
double's exact value 3.141592653589793115997963468544185161590576171875.
Every Python exception the code can raise is one variant of `Outcomes.Error`.
An operation that can raise returns a `Result`, and `:-` propagates the first
failure as the exception would.

Modules:

- `Outcomes`: errors, `Option`, `Result`, and `Traverse` (map with early exit).
- `Streams`: `Draw`, which takes `n` samples from any steppable state. This is
  the loop every sink runs.
- `Oscillators`: the `Osc` record and its operations:
  - `New` is the constructor;
  - `SetFrequency`, `SetPhase` and `SetAmplitude` are the property setters
    together with their `_post_*_set` hooks;
  - `Arm` is `__iter__`;
  - `Next` is `__next__`;
  - `Squish` is `squish_value`.

  An oscillator holds:
  - its construction values, which never change;
  - the working `f`, `p` and `a`;
  - `derived`, which is `_step` for Sine and Square and `_period` for Sawtooth
    and Triangle;
  - `counter`, which is `_i`.

  `derived` and `counter` are `Option`s, because Python creates those attributes
  lazily. Reading them too early raises `AttributeError`.
- `Sources`: a sample source, which is a single oscillator or a `WaveAdder`
  over child oscillators. It defines:
  - `ArmSource` (`iter(gen)`);
  - `NextSource` (`next(gen)`);
  - `Run`, which takes `n` samples.
- `OscillatorProperties`, `MixerProperties`: lemmas about the oscillators,
  about whole runs, and about the mixer.
- `SinGenerator`: `sin_osc_generator`. It includes the proof that, over the
  reals, it yields the same samples as a freshly armed `SineOscillator`.
- `Pcm`: Python's `round` (half to even), `struct.pack("h")` with its inverse,
  and `struct.pack_into` of four bytes.
- `WaveWriter`: the name, header and data that `WaveWriter.write` produces.
- `WavePlayer`: the buffer that `WavePlayer.play` fills.

## Model

| member | source | states |
|---|---|---|
| Oscillators.Squish | oscillator-object.py:81-83 | `squish_value` sends -1 to `lo` and 1 to `hi`. It is the identity for the range (-1, 1), and it keeps [-1, 1] inside [lo, hi] when lo ≤ hi |
| OscillatorProperties.SquishAffine | oscillator-object.py:82-83 | `squish_value` is affine: the image of a weighted mean is the weighted mean of the images |
| Oscillators.Emit | oscillator-object.py:110-112 | Squishing only when the range is not (-1, 1) and then scaling equals squishing unconditionally and then scaling. The guard never changes a sample, and amplitude is applied after the range |
| Oscillators.EmitBounded | oscillator-object.py:110-112 | A raw value in [-1, 1] with lo ≤ hi and a non-negative amplitude gives a sample in [lo·a, hi·a] |
| Oscillators.SawtoothRaw | oscillator-object.py:139-140 | The raw sawtooth `2·(div − ⌊0.5 + div⌋)` lies in [-1, 1) |
| Oscillators.TriangleRaw | oscillator-object.py:148-150 | The raw triangle `(abs(v) − 0.5)·2` lies in [-1, 1] |
| OscillatorProperties.SawtoothPeriodic | oscillator-object.py:139-140 | The raw sawtooth is unchanged when `div` grows by one period |
| OscillatorProperties.SawtoothFundamental | oscillator-object.py:139-140 | On [-0.5, 0.5) the raw sawtooth is the straight line `2·div` |
| OscillatorProperties.TrianglePeriodic | oscillator-object.py:148-150 | The raw triangle is unchanged when `div` grows by one period |
| OscillatorProperties.TriangleFundamental | oscillator-object.py:148-150 | On [-0.5, 0.5) the raw triangle is `4·abs(div) − 1`: -1 at the centre of the period and rising linearly to 1 at both ends |
| Oscillators.SetFrequency | oscillator-object.py:45-48 | The frequency setter stores `f`. With the hooks at lines 98-99 and 129-130 it makes the derived state consistent: step·rate = 2π·f, or period·f = rate. It raises ZeroDivisionError exactly when the rate (Sine, Square) or the new frequency (Sawtooth, Triangle) is 0, and it changes nothing else |
| Oscillators.SetPhase | oscillator-object.py:63-66 | The phase setter stores the converted phase: `p·360 = v·2π` for Sine and Square (hooks at lines 101-102) and `p·360 = (v + 90)·period` for Sawtooth and Triangle (line 133), a zero period included. Converting back to degrees gives the value that was set whenever the period is nonzero. Sawtooth and Triangle raise AttributeError when no period exists yet. Nothing but the phase changes |
| Oscillators.SetAmplitude | oscillator-object.py:54-57 | The amplitude setter stores the amplitude and changes nothing else |
| Oscillators.Arm | oscillator-object.py:89-94 | Arming restores frequency, then phase, then amplitude from the construction values and sets the counter to 0. It fails exactly when the frequency setter would divide by zero. The armed state is consistent, and its phase reads back as the construction phase |
| Oscillators.Next | oscillator-object.py:107-154 | `__next__` raises AttributeError on an unarmed oscillator, and ZeroDivisionError when a Sawtooth or Triangle has period 0. Otherwise the counter moves on by the step (Sine, Square) or by 1 (Sawtooth, Triangle), and nothing else changes |
| Oscillators.RadialValue | oscillator-object.py:107-126 | A Square sample is `hi·a` when `sin(i + p)` reaches the threshold and `lo·a` below it, so always one of the two. A Sine sample lies in [lo·a, hi·a] when `sin` stays in [-1, 1], lo ≤ hi and a ≥ 0 |
| OscillatorProperties.NewIsUnarmed | oscillator-object.py:17-27 | A fresh oscillator's getters return the construction values, and advancing it before arming raises AttributeError |
| Oscillators.New | oscillator-object.py:17-27 | The constructor stores the raw frequency, phase and amplitude both as construction values and as working values, runs no setter, and leaves the oscillator unarmed with no step or period |
| OscillatorProperties.FrequencySetterScope | oscillator-object.py:45-48 | The frequency setter leaves the counter, amplitude, stored phase and construction values unchanged |
| OscillatorProperties.PhaseReassignConverts | oscillator-object.py:59-66 | For a nonzero radial phase, `osc.phase = osc.phase` converts a second time and changes the stored phase |
| OscillatorProperties.ArmUsesFreshPeriod | oscillator-object.py:89-94 | When a Sawtooth or Triangle is armed, its phase offset is `((phase + 90)/360)·(rate/frequency)`, using the period just recomputed from the construction frequency |
| OscillatorProperties.ArmForgetsHistory | oscillator-object.py:89-94 | Two oscillators built with the same arguments arm to the same state, whatever was done to them before |
| OscillatorProperties.FrequencyChangeIsImmediate | oscillator-object.py:98-109 | After a frequency change on an armed Sine or Square, the very next advance moves the counter by `2π·v/rate` |
| OscillatorProperties.TimesIsProduct | oscillator-object.py:109 | Adding the step `k` times, as `_i += _step` does, gives `k·step` |
| OscillatorProperties.TimesOne | oscillator-object.py:141 | Adding 1 `k` times, as `_i += 1` does, gives `k` |
| OscillatorProperties.RunCounter | oscillator-object.py:107-154 | After `n` advances of an armed oscillator, the counter has moved on by `n` increments, and nothing else has changed |
| OscillatorProperties.RunSample | oscillator-object.py:107-154 | Sample `k` of a run is the sample the oscillator gives with its counter `k` increments further on |
| OscillatorProperties.SineSamples | oscillator-object.py:107-112 | Sample `k` of a Sine run is `squish(sin(i + k·step + p))·a` |
| OscillatorProperties.SquareSamples | oscillator-object.py:119-126 | Sample `k` of a Square run is `lo·a` when `sin(i + k·step + p)` is below the threshold, and `hi·a` otherwise. A Square never squishes |
| OscillatorProperties.PeriodicSamples | oscillator-object.py:138-154 | Sample `k` of a Sawtooth or Triangle run is the raw wave at `(i + k + p)/period`, squished and scaled |
| OscillatorProperties.SampleWithinRange | oscillator-object.py:107-154 | When `sin` stays in [-1, 1], lo ≤ hi and the amplitude is not negative, every Sine, Sawtooth and Triangle sample lies in [lo·a, hi·a] |
| OscillatorProperties.SquareTwoValued | oscillator-object.py:119-126 | Every sample of a Square run is exactly `lo·a` or `hi·a` |
| OscillatorProperties.QuarterPeriodStart | oscillator-object.py:132-133 | Arming a Sawtooth or Triangle with phase 0 puts the counter a quarter period into the wave |
| OscillatorProperties.FirstSawtoothSample | oscillator-object.py:132-144 | At phase 0, the first Sawtooth sample has raw value 0.5 |
| OscillatorProperties.FirstTriangleSample | oscillator-object.py:146-154 | At phase 0, the first Triangle sample has raw value 0 |
| OscillatorProperties.FirstSineSample | oscillator-object.py:101-112 | At phase 0, the first Sine sample is `squish(sin(0))·a` |
| Sources.ArmAll | oscillator-object.py:162-164 | The adder's `__iter__` arms every child in order. It succeeds exactly when every child arms, each armed child is that child's arming, and a failure is the first failing child's exception |
| Sources.AdvanceAll | oscillator-object.py:167 | The generator inside `sum` advances every child exactly once, in order. The values and new states are the children's own `next`, and a failure is the first failing child's exception |
| Sources.ArmSource | oscillator-object.py:162-164 | `iter(gen)` arms the oscillator, or every child of the adder, and keeps how the source was built |
| Sources.NextSource | oscillator-object.py:166-167 | An adder's `next` succeeds exactly when it has children and every child advances. Each child moves exactly as it would alone, and an adder without children raises ZeroDivisionError |
| Sources.Run | oscillator-object.py:229-230 | Drawing `n` samples yields exactly `n` values and keeps how the source was built |
| Sources.SumSnoc | oscillator-object.py:167 | The right-fold `Sum` equals the left-to-right accumulation from 0 that `sum` performs: the total of all but the last value, plus the last |
| Sources.Sum | oscillator-object.py:167 | The total of the children's samples; `SumSnoc` ties it to `sum`'s order and `SumWithin` bounds it |
| Sources.Mean | oscillator-object.py:167 | The adder's sample `sum(...)/len(...)`: the mean times the number of values is their sum |
| MixerProperties.AdderSample | oscillator-object.py:166-167 | An adder sample is the mean of one sample of every child |
| MixerProperties.MeanWithin | oscillator-object.py:167 | The mean of values in [lo, hi] lies in [lo, hi] |
| MixerProperties.AdderWithin | oscillator-object.py:166-167 | An adder sample lies within any bounds that every child's sample respects |
| MixerProperties.ArmAllAlike | oscillator-object.py:162-164 | Child lists that arm child by child alike arm alike as a whole, including which exception is raised |
| MixerProperties.ArmSourceForgetsHistory | oscillator-object.py:162-164 | Sources built alike arm to the same state |
| MixerProperties.ReplayIsIdentical | oscillator-object.py:89-94 | Re-arming after any number of samples gives back the freshly armed source, so two armed runs of equal length are identical |
| MixerProperties.OneChildArmsAlike | oscillator-object.py:162-164 | A one-child adder arms exactly when its child does, to the armed child |
| MixerProperties.OneChildRunsAlike | oscillator-object.py:166-167 | A one-child adder plays exactly its child's samples and leaves the child where running it alone would |
| MixerProperties.EqualChildrenStep | oscillator-object.py:166-167 | One advance of an adder whose children are all in the same state gives that state's sample, and the children stay alike |
| MixerProperties.EqualChildrenRunAlike | oscillator-object.py:166-167 | An adder over `m > 0` children in the same state plays exactly one such child's samples |
| MixerProperties.EqualChildrenArmAlike | oscillator-object.py:162-164 | Arming `m` identically built children arms each to the same state |
| SinGenerator.SinOscGenerator | oscillator.py:9-12 | A zero rate raises ZeroDivisionError at the call. Otherwise the phase is `phase·2π/360`, the increment times the rate is `2π·frequency`, and the counter starts at 0 |
| SinGenerator.GenNext | oscillator.py:12 | Each `next` moves the position on by the increment |
| SinGenerator.Take | oscillator.py:12 | The first `n` values of the lazy generator, `n` of them; `TakeElement` gives each one |
| SinGenerator.TakeElement | oscillator.py:12 | Element `k` is `sin(phase + position + k·increment)·amplitude` |
| SinGenerator.GeneratorElements | oscillator.py:9-12 | Element `k` of a fresh generator is `sin(phase' + k·increment)·amplitude` |
| SinGenerator.InStepRuns | oscillator.py:12 | A generator and an armed default-range Sine with the same phase, amplitude, step and position give the same samples |
| SinGenerator.GeneratorMatchesOscillator | oscillator.py:9-12 | `sin_osc_generator` yields exactly the samples of a freshly armed `SineOscillator` with the same frequency, phase, amplitude and rate and the default range |
| Pcm.RoundHalfEven | oscillator-object.py:267 | `round` gives an integer within 1/2 of its argument, and on a tie the even one |
| Pcm.RoundIntegral | oscillator-object.py:267 | `round` of an integer is that integer |
| Pcm.RoundHalves | oscillator-object.py:267 | `round(0.5) = 0`, `round(1.5) = 2`, `round(2.5) = 2`, `round(-0.5) = 0` |
| Pcm.PackShort | oscillator-object.py:268 | `struct.pack("h")` gives two bytes exactly for values in [-32768, 32767], and raises struct.error otherwise |
| Pcm.UnpackShort | oscillator-object.py:268 | Reading two bytes back gives a 16-bit value, negative exactly when the high byte's top bit is set |
| Pcm.UnpackPack | oscillator-object.py:268 | Packing then unpacking gives back every 16-bit value |
| Pcm.PackUnpack | oscillator-object.py:268 | Every two bytes are the packing of exactly one value |
| Pcm.PackInto | oscillator-object.py:232 | `struct.pack_into` replaces exactly the four bytes at the offset |
| Pcm.PackIntoIdempotent | oscillator-object.py:232-233 | Packing the same bytes at the same offset twice is packing them once |
| WaveWriter.NormaliseName | oscillator-object.py:248-251 | A missing or empty name becomes the timestamp. The result ends in `.wav` and starts with that base name. It equals the base exactly when the base already ends in `.wav`, and otherwise is four characters longer, so it is the base followed by `.wav` |
| WaveWriter.BaseName | oscillator-object.py:248-249 | A missing or empty name is replaced by the timestamp; any other name is kept |
| WaveWriter.NormaliseIdempotent | oscillator-object.py:250-251 | Normalising a normalised name changes nothing |
| WaveWriter.Copies | oscillator-object.py:269-270 | Each two-byte slot of the copies holds the packed value |
| WaveWriter.Encode | oscillator-object.py:267-268 | `struct.pack("h", round(v))` succeeds exactly when the rounded value is in the 16-bit range, and raises struct.error otherwise. Its two bytes read back as the rounded value |
| WaveWriter.FrameStartIsProduct | oscillator-object.py:264-276 | Frame `k` starts at byte `2·copies·k` |
| WaveWriter.Frames | oscillator-object.py:264-276 | Encoding samples fails with struct.error exactly when some rounded sample is out of the 16-bit range, and otherwise yields `2·copies` bytes per sample |
| WaveWriter.FramesLayout | oscillator-object.py:264-276 | Copy `j` of frame `k` holds the packing of sample `k` |
| WaveWriter.Payload | oscillator-object.py:264-276 | The writer's loop, which draws and packs one sample at a time, writes `2·copies` bytes per drawn sample |
| WaveWriter.PayloadErrorIsStructRange | oscillator-object.py:264-276 | When every sample can be drawn, the loop can only fail with struct.error |
| WaveWriter.PayloadIsFramesOfDraw | oscillator-object.py:264-276 | Encoding while drawing is encoding the finished draw: it fails at the same point and writes the same bytes |
| WaveWriter.Write | oscillator-object.py:247-277 | The writer raises the wave module's error for refused header parameters before the source is touched. The file gets the normalised name, and the data holds `2·copies·sample_length` bytes, with copies 2 for stereo and 1 for any other channel count. A successful write has a non-negative `sample_length` and a header for `framerate·sample_length` frames that packs |
| WaveWriter.AcceptedParams | oscillator-object.py:256 | The parameters `setparams` accepts: at least one channel, a sample width of 1 to 4 bytes, a positive frame rate and compression `NONE` |
| WaveWriter.DeclaredDataLength | oscillator-object.py:254-277 | The data length the header declares is the declared frame count times the frame size. When no frames were declared, it is at most the bytes being written |
| WaveWriter.HeaderPacks | oscillator-object.py:277 | `writeframes` packs the RIFF size `36 + datalength`, the channel count, the frame rate, the byte rate, the block alignment and the data length into unsigned 16- and 32-bit fields. When the bytes written differ from the declared length, it re-packs the sizes from the bytes written |
| WaveWriter.NegativeFramesBreakHeader | oscillator-object.py:254-277 | A negative declared frame count never packs |
| WaveWriter.NegativeLengthBreaksHeader | oscillator-object.py:254-277 | With a positive frame rate, a negative `sample_length` never packs, so such a write raises struct.error although its loop draws nothing |
| WaveWriter.DefaultHeaderOverflows | oscillator-object.py:254-277 | As written, at 44100 Hz, stereo and 16 bits, every write of 24348 or more samples raises struct.error, although its data alone would fit. At 24347 samples the header still packs |
| WaveWriter.WriteLayout | oscillator-object.py:254-277 | The data are the frames of exactly `sample_length` samples of the freshly armed source. The header declares `framerate·sample_length` frames, and the `nframes` argument plays no part |
| WaveWriter.WriteSucceeds | oscillator-object.py:247-277 | The writer succeeds exactly when the parameters are accepted, the source arms, `sample_length` samples can be drawn, every one rounds into [-32768, 32767], and the header `writeframes` packs for `framerate·sample_length` declared frames fits its fields. A failed arming raises its own exception, and a drawable run that fails raises struct.error |
| WaveWriter.WriteCorrected | oscillator-object.py:254-277 | The corrected writer gives `2·nchannels·sample_length` data bytes and declares `sample_length` frames in the header |
| WaveWriter.CorrectedFramesAreWhole | oscillator-object.py:264-276 | The corrected writer's data is whole frames, and every channel of frame `k` carries sample `k` |
| WaveWriter.CorrectedHeaderIsExact | oscillator-object.py:254-277 | With 16-bit samples, the corrected header declares `sample_length` frames, whose data length is exactly the bytes written. The RIFF size `36 + bytes` then fits |
| WaveWriter.DeclaredIsWritten | oscillator-object.py:254-277 | Declaring the frames actually written makes the declared data length equal the written length |
| WaveWriter.ThreeChannelsSplitFrames | oscillator-object.py:271-276 | As written, one sample on three 16-bit channels leaves 2 bytes, which is not a whole 6-byte frame |
| WaveWriter.ThreeChannelWitness | oscillator-object.py:271-276 | A concrete three-channel write that succeeds |
| WavePlayer.Pack | oscillator-object.py:232 | `struct.pack_into("f")` raises OverflowError exactly when the encoder has no 4-byte form for the value |
| WavePlayer.Zeros | oscillator-object.py:227 | `bytearray(count)` is `count` zero bytes |
| WavePlayer.Fill | oscillator-object.py:228-238 | The playing loop keeps the buffer's length |
| WavePlayer.FillTwiceIsOnce | oscillator-object.py:228-238 | The stereo loop, which packs every value twice at one offset, fills the buffer exactly as the mono loop does |
| WavePlayer.FillSucceeds | oscillator-object.py:228-238 | The loop succeeds exactly when the draw succeeds and every sample packs |
| WavePlayer.FillKeepsOutside | oscillator-object.py:235-238 | The loop leaves the bytes outside its slots unchanged |
| WavePlayer.FillLayout | oscillator-object.py:235-238 | Slot `i + k` holds the packing of drawn sample `k` |
| WavePlayer.FillFresh | oscillator-object.py:227-238 | On a fresh buffer, mono or stereo, the loop succeeds exactly when every drawn sample packs, and slot `k` holds sample `k` |
| WavePlayer.Play | oscillator-object.py:223-240 | `play` arms the source first, then raises for a negative frame count `rate·nchannels·length`, and otherwise produces `4·rate·nchannels·length` bytes |
| WavePlayer.PlayLayout | oscillator-object.py:223-240 | Playing succeeds exactly when arming succeeds, the count is not negative and every sample of the run packs. Slot `k` then holds the packing of sample `k` of the freshly armed source |
| WavePlayer.PlayDependsOnFrameCount | oscillator-object.py:225-238 | The buffer depends on rate, channels and length only through their product |

## Left out

- `noise.py`, the PulseAudio and ctypes plumbing, and `WavePlayer.__init__`,
  `write` and `__del__`: these are device I/O. The bytes `play` hands to
  `write` are the model's result.
- The first `WavePlayer.play` (oscillator-object.py:208-221): Python replaces
  it with the definition at line 223.
- The `wave` module's file I/O: `open`, `writeframes`, `getnframes`,
  `close`, and patching the header's frame count at close. `Write` returns
  the name, the parameters given to `setparams` and the data bytes instead.
  Of `setparams`, only the checks it makes are modelled: at least one
  channel, a sample width of 1 to 4, a positive frame rate and compression
  `NONE`. Of `writeframes`, only the header packing that can raise is
  modelled (`HeaderPacks`). CPython's `wave` module is not part of this model;
  the field layout follows its `_write_header` and `_patchheader`.
- `WaveWriter.Write`: the caller's source is not returned. In Python, `write`
  leaves `gen` armed and advanced `sample_length` times, so a frequency set
  before the call is back at its construction value afterwards. `Run`'s final
  state (`Run(sin, ArmSource(s).value, n).value.1`) is that source, but
  `Write` returns only the file.
- `WavePlayer.Play`: the caller's source is not returned either. Python leaves
  it armed and advanced `rate·nchannels·length` times, which is the final
  state of the same `Run`.
- `WaveWriter.Write`: the sample width is not used for packing, because the
  code always packs 2 bytes whatever `sampwidth` says. The model does the
  same.
- `datetime.now()`: the default name is the input `timestamp`.
- IEEE-754 arithmetic:
  - floats are exact reals, so the rounding that accumulates in `_i += _step`
    and in divisions is not modelled;
  - `math.sin` is an arbitrary function `sin`;
  - `struct.pack("f")` is an arbitrary encoder to four bytes, which fails
    where Python raises OverflowError.
- `struct.pack("h")` in native byte order: the model assumes a
  little-endian machine.
- `main()`, the script lines of `oscillator.py` (14-16), and the
  unreachable `_pass` of the abstract `_initialize_osc`.
- A WaveAdder holding the same oscillator object twice (aliasing), and
  adders nested inside adders: children are independent oscillators.
- The state left behind by any operation that raises. Every failing
  operation returns only the error. This covers:
  - an exception escaping half-way through `__iter__` or a sink;
  - the frequency setter, which stores `_f` before `_post_freq_set` raises
    ZeroDivisionError (oscillator-object.py:47-48), so that `frequency` then
    reads the new value while the step or period is stale (`SetFrequency`);
  - the phase setter, which stores `_p` before its hook raises
    AttributeError (oscillator-object.py:65-66; `SetPhase`);
  - `WaveAdder.__next__`, which has already advanced the children before the
    one that fails (oscillator-object.py:167; `NextSource`).
- Non-integer `sample_length` or `length` arguments. They are integers
  here. A negative `sample_length` draws nothing, as `range` does, and the
  header for its negative frame count then raises struct.error.
- The wave module also accepts other parameter types, such as floats for the
  rate. Only integer parameters are modelled.
- `sin_osc_generator`'s lazy infinite sequence: `Take` gives its first `n`
  values, and equal arguments give equal values because the model is pure.

Behaviour of the code that a reader may not expect, which the model follows:

- At phase 0, a Sawtooth starts at raw value 0.5, because the phase setter
  shifts the offset by a quarter period (line 133; `FirstSawtoothSample`).
- The writer's data is `2·sample_length·copies` bytes, with copies 2 only for
  stereo. The header's frame count `framerate·sample_length` and the
  `nframes` argument play no part in it (`Write`, `WriteLayout`). The
  declared frame count still decides whether the header packs
  (`WriteSucceeds`, and the second finding below).
- An adder with no children is accepted when built and when armed. Its first
  `next` raises ZeroDivisionError (`NextSource`).
- A zero frequency on a Sawtooth or Triangle, or a zero rate on a Sine or
  Square, raises ZeroDivisionError when the oscillator is armed.
  Construction itself never fails (`Arm`).

## Findings

| source | as written | input that shows it | evidently intended | confidence | as-written member | corrected member |
|---|---|---|---|---|---|---|
| oscillator-object.py:264-276 | For any channel count other than 2, each sample is packed once, so a file with 3 or more channels receives one 2-byte value per drawn sample | `write(gen, name="A", sample_length=1, nchannels=3, sampwidth=2)` with a Sawtooth at phase 0 writes 2 data bytes, while one 3-channel 16-bit frame is 6 bytes | Each sample is written once per channel, so that the data is `sample_length` whole frames | not executed | WaveWriter.ThreeChannelsSplitFrames, WaveWriter.ThreeChannelWitness | WaveWriter.WriteCorrected, WaveWriter.CorrectedFramesAreWhole |
| oscillator-object.py:254 | `nframes = framerate * sample_length` declares `framerate` times the frames the loop writes. `writeframes` packs `36 + nframes·nchannels·sampwidth` into an unsigned 32-bit field, so at the default 44100 Hz, stereo and 16 bits every `sample_length` of 24348 or more (0.55 s of audio) raises struct.error | `write(gen, sample_length=24348)` with the defaults: the declared RIFF size is `36 + 44100·24348·4 = 4294987236 > 2³²−1`, while the data is 97392 bytes | `nframes = sample_length`, the frames actually written | not executed; rests on CPython's `wave` header layout | WaveWriter.Write, WaveWriter.DefaultHeaderOverflows | WaveWriter.WriteCorrected, WaveWriter.CorrectedHeaderIsExact |
