/** `WaveWriter.write`: name the file, declare the header, arm the source and
    draw `sample_length` samples, each rounded and packed as a 16-bit value
    and written twice for stereo, once otherwise.
 */
module WaveWriter {
  import opened Outcomes
  import opened Streams
  import opened Oscillators
  import opened Sources
  import opened Pcm
  import opened OscillatorProperties

  predicate EndsWith(s: string, suffix: string)
  {
    |suffix| <= |s| && s[|s| - |suffix|..] == suffix
  }

  /** The name the file gets before the suffix check: a missing or empty name becomes the timestamp. */
  function BaseName(name: Option<string>, timestamp: string): string
  {
    if name.None? || name.value == "" then timestamp else name.value
  }

  /** The output file name: the base name, with `.wav` appended unless it already ends so. */
  function NormaliseName(name: Option<string>, timestamp: string): (r: string)
    ensures EndsWith(r, ".wav")
    ensures |BaseName(name, timestamp)| <= |r| && r[..|BaseName(name, timestamp)|] == BaseName(name, timestamp)
    ensures r == BaseName(name, timestamp) <==> EndsWith(BaseName(name, timestamp), ".wav")
    ensures r != BaseName(name, timestamp) ==> |r| == |BaseName(name, timestamp)| + 4
  {
    var base := BaseName(name, timestamp);
    if EndsWith(base, ".wav") then base else base + ".wav"
  }

  /** Normalising a normalised name changes nothing, whatever the clock says. */
  lemma NormaliseIdempotent(name: Option<string>, timestamp: string, timestamp': string)
    ensures NormaliseName(Some(NormaliseName(name, timestamp)), timestamp') == NormaliseName(name, timestamp)
  {
    var r := NormaliseName(name, timestamp);
    assert r != "";
  }

  /** The parameters the header is opened with. */
  datatype WavParams = WavParams(nchannels: int, sampwidth: int, framerate: int, nframes: int, comptype: string, compname: string)

  /** What `write` leaves behind: the file name, the parameters given to the
      header, and the frame bytes handed to `writeframes`. */
  datatype WavFile = WavFile(name: string, params: WavParams, data: seq<byte>)

  /** The checks the `wave` module makes when the parameters are set: at least
      one channel, a sample width of 1 to 4 bytes, a positive frame rate and
      no compression. */
  predicate AcceptedParams(nchannels: int, sampwidth: int, framerate: int, comptype: string)
  {
    && nchannels >= 1
    && 1 <= sampwidth <= 4
    && framerate > 0
    && comptype == "NONE"
  }

  const MaxU16: int := 0xFFFF
  const MaxU32: int := 0xFFFF_FFFF

  /** The value fits a `struct` field of type `'H'` or `'L'`; packing anything else raises struct.error. */
  predicate FitsU16(x: int)
  {
    0 <= x <= MaxU16
  }

  predicate FitsU32(x: int)
  {
    0 <= x <= MaxU32
  }

  /** The data length the header declares when the first `writeframes` writes
      it: the declared frame count times the frame size, or, when no frame
      count was declared, the whole frames among the bytes being written. */
  function DeclaredDataLength(nchannels: int, sampwidth: int, nframes: int, dataLength: nat): (r: int)
    requires nchannels >= 1 && sampwidth >= 1
    ensures nframes != 0 ==> r == nframes * (nchannels * sampwidth)
    ensures nframes == 0 ==> 0 <= r <= dataLength
  {
    var frames := if nframes == 0 then dataLength / (nchannels * sampwidth) else nframes;
    frames * (nchannels * sampwidth)
  }

  /** The header `writeframes` packs succeeds: the RIFF size `36 + datalength`,
      the channel count, the frame rate, the byte rate, the block alignment
      and the data length all fit their unsigned fields; and when fewer or
      more bytes were written than declared, the patched sizes fit too. */
  predicate HeaderPacks(nchannels: int, sampwidth: int, framerate: int, nframes: int, dataLength: nat)
    requires nchannels >= 1 && sampwidth >= 1
  {
    var declared := DeclaredDataLength(nchannels, sampwidth, nframes, dataLength);
    && FitsU32(36 + declared)
    && FitsU32(declared)
    && FitsU16(nchannels)
    && FitsU32(framerate)
    && FitsU32(nchannels * framerate * sampwidth)
    && FitsU16(nchannels * sampwidth)
    && (declared != dataLength ==> FitsU32(36 + dataLength))
  }

  /** `c` copies of the two bytes of one packed value. */
  function Copies(bs: seq<byte>, c: nat): (r: seq<byte>)
    requires |bs| == 2
    ensures |r| == 2 * c
    ensures forall j :: 0 <= j < c ==> r[2 * j..2 * j + 2] == bs
  {
    var r := seq(2 * c, i requires 0 <= i < 2 * c => bs[i % 2]);
    assert forall j :: 0 <= j < c ==> r[2 * j..2 * j + 2] == bs by {
      forall j | 0 <= j < c
        ensures r[2 * j..2 * j + 2] == bs
      {
        assert r[2 * j] == bs[0] && r[2 * j + 1] == bs[1];
      }
    }
    r
  }

  /** Where frame `k` starts when every frame holds `copies` two-byte values:
      `2·copies` bytes per frame, added up frame by frame. */
  function FrameStart(copies: nat, k: nat): (r: nat)
  {
    if k == 0 then 0 else FrameStart(copies, k - 1) + 2 * copies
  }

  lemma {:induction false} FrameStartIsProduct(copies: nat, k: nat)
    ensures FrameStart(copies, k) == 2 * copies * k
  {
    if k > 0 {
      FrameStartIsProduct(copies, k - 1);
      assert 2 * copies * k == 2 * copies * (k - 1) + 2 * copies;
    }
  }

  /** The 16-bit packing of one rounded sample. */
  function Encode(v: real): (r: Result<seq<byte>>)
    ensures r.Ok? <==> InShortRange(RoundHalfEven(v))
    ensures r.Err? ==> r.error == StructRange
    ensures r.Ok? ==> |r.value| == 2 && UnpackShort(r.value) == RoundHalfEven(v)
  {
    var n := RoundHalfEven(v);
    assert InShortRange(n) ==> UnpackShort(PackShort(n).value) == n by {
      if InShortRange(n) { UnpackPack(n); }
    }
    PackShort(n)
  }

  /** The bytes a finished sequence of samples turns into, `copies` per sample;
      the first sample whose rounding leaves the 16-bit range raises. */
  function Frames(vals: seq<real>, copies: nat): (r: Result<seq<byte>>)
    ensures r.Ok? <==> forall k :: 0 <= k < |vals| ==> InShortRange(RoundHalfEven(vals[k]))
    ensures r.Err? ==> r.error == StructRange
    ensures r.Ok? ==> |r.value| == FrameStart(copies, |vals|)
    decreases |vals|
  {
    if |vals| == 0 then Ok([])
    else
      var first :- Encode(vals[0]);
      var rest :- Frames(vals[1..], copies);
      assert forall k :: 1 <= k < |vals| ==> vals[1..][k - 1] == vals[k];
      Ok(Copies(first, copies) + rest)
  }

  /** Frame `k` starts after frame `k - 1` ends, and frames never overlap. */
  lemma {:induction false} FrameStartMonotone(copies: nat, k: nat, m: nat)
    requires k <= m
    ensures FrameStart(copies, k) + 2 * copies * (if k < m then 1 else 0) <= FrameStart(copies, m)
    decreases m
  {
    if k < m {
      FrameStartMonotone(copies, k, m - 1);
    }
  }

  /** The frames of a non-empty sequence: the first sample's copies, then the rest's frames. */
  lemma FramesUnfold(vals: seq<real>, copies: nat)
    requires Frames(vals, copies).Ok? && |vals| > 0
    ensures Encode(vals[0]).Ok? && Frames(vals[1..], copies).Ok?
    ensures Frames(vals, copies).value == Copies(Encode(vals[0]).value, copies) + Frames(vals[1..], copies).value
  {
  }

  lemma SliceOfFront(a: seq<byte>, b: seq<byte>, at: nat)
    requires at + 2 <= |a|
    ensures (a + b)[at..at + 2] == a[at..at + 2]
  {
  }

  lemma SliceOfBack(a: seq<byte>, b: seq<byte>, at: nat)
    requires at + 2 <= |b|
    ensures (a + b)[|a| + at..|a| + at + 2] == b[at..at + 2]
  {
  }

  /** Copy `j` of frame `k` holds the packing of sample `k`. */
  lemma {:induction false} FramesLayout(vals: seq<real>, copies: nat, k: nat, j: nat)
    requires Frames(vals, copies).Ok? && k < |vals| && j < copies
    ensures var at := FrameStart(copies, k) + 2 * j;
      at + 2 <= |Frames(vals, copies).value| && Frames(vals, copies).value[at..at + 2] == Encode(vals[k]).value
    decreases |vals|
  {
    FramesUnfold(vals, copies);
    var head := Copies(Encode(vals[0]).value, copies);
    var rest := Frames(vals[1..], copies).value;
    FrameStartMonotone(copies, k, |vals|);
    if k == 0 {
      SliceOfFront(head, rest, 2 * j);
    } else {
      FramesLayout(vals[1..], copies, k - 1, j);
      assert vals[1..][k - 1] == vals[k];
      SliceOfBack(head, rest, FrameStart(copies, k - 1) + 2 * j);
    }
  }

  /** The writer's loop: draw `n` samples, encoding each as soon as it is drawn. */
  function Payload<S>(step: Step<S>, s: S, n: nat, copies: nat): (r: Result<(seq<byte>, S)>)
    ensures r.Ok? ==> |r.value.0| == FrameStart(copies, n)
    decreases n
  {
    if n == 0 then Ok(([], s))
    else
      var first :- step(s);
      var bytes :- Encode(first.0);
      var rest :- Payload(step, first.1, n - 1, copies);
      Ok((Copies(bytes, copies) + rest.0, rest.1))
  }

  /** Encoding while drawing is encoding the finished draw: the loop succeeds
      exactly when the draw does and every sample fits, and then writes the
      draw's frames and leaves the state where the draw does. */
  lemma {:induction false} PayloadIsFramesOfDraw<S>(step: Step<S>, s: S, n: nat, copies: nat)
    ensures Payload(step, s, n, copies).Ok? <==> Draw(step, s, n).Ok? && Frames(Draw(step, s, n).value.0, copies).Ok?
    ensures Payload(step, s, n, copies).Ok? ==>
      Payload(step, s, n, copies).value == (Frames(Draw(step, s, n).value.0, copies).value, Draw(step, s, n).value.1)
    decreases n
  {
    if n > 0 && step(s).Ok? {
      var first := step(s).value;
      DrawUnfold(step, s, n);
      PayloadIsFramesOfDraw(step, first.1, n - 1, copies);
      if Draw(step, s, n).Ok? {
        var vals := Draw(step, s, n).value.0;
        assert vals[0] == first.0 && vals[1..] == Draw(step, first.1, n - 1).value.0;
      }
    }
  }

  /** `WaveWriter.write` as written: the header declares `framerate·sample_length`
      frames whatever `nframes` says, and each sample is written twice when
      `nchannels == 2` and once for any other channel count. */
  function Write(sin: real -> real, s: Source, name: Option<string>, timestamp: string, sampleLength: int,
                 nchannels: int, sampwidth: int, framerate: int, nframes: int, comptype: string, compname: string): (r: Result<WavFile>)
    ensures r.Ok? ==> AcceptedParams(nchannels, sampwidth, framerate, comptype) && ArmSource(s).Ok?
    ensures !AcceptedParams(nchannels, sampwidth, framerate, comptype) ==> r == Err(BadWaveParams)
    ensures r.Ok? ==> r.value.name == NormaliseName(name, timestamp)
    ensures r.Ok? ==> |r.value.data| == FrameStart(if nchannels == 2 then 2 else 1, if sampleLength < 0 then 0 else sampleLength)
    ensures r.Ok? ==> sampleLength >= 0 && HeaderPacks(nchannels, sampwidth, framerate, framerate * sampleLength, |r.value.data|)
  {
    var fileName := NormaliseName(name, timestamp);
    var declared := framerate * sampleLength;
    if !AcceptedParams(nchannels, sampwidth, framerate, comptype) then Err(BadWaveParams)
    else
      var armed :- ArmSource(s);
      var count := if sampleLength < 0 then 0 else sampleLength;
      var copies := if nchannels == 2 then 2 else 1;
      var payload :- Payload(Stepper(sin), armed, count, copies);
      if !HeaderPacks(nchannels, sampwidth, framerate, declared, |payload.0|) then Err(StructRange)
      else
        NegativeLengthBreaksHeader(nchannels, sampwidth, framerate, sampleLength, |payload.0|);
        Ok(WavFile(fileName, WavParams(nchannels, sampwidth, framerate, declared, comptype, compname), payload.0))
  }

  /** A negative declared frame count gives a negative data length, which no unsigned field can hold. */
  lemma NegativeFramesBreakHeader(nchannels: int, sampwidth: int, framerate: int, frames: int, dataLength: nat)
    requires nchannels >= 1 && sampwidth >= 1
    ensures HeaderPacks(nchannels, sampwidth, framerate, frames, dataLength) ==> frames >= 0
  {
    if frames < 0 {
      assert frames * (nchannels * sampwidth) < 0;
    }
  }

  /** With a positive frame rate, `framerate·sample_length` is negative exactly when `sample_length` is. */
  lemma NegativeLengthBreaksHeader(nchannels: int, sampwidth: int, framerate: int, sampleLength: int, dataLength: nat)
    requires nchannels >= 1 && sampwidth >= 1 && framerate > 0
    ensures HeaderPacks(nchannels, sampwidth, framerate, framerate * sampleLength, dataLength) ==> sampleLength >= 0
  {
    NegativeFramesBreakHeader(nchannels, sampwidth, framerate, framerate * sampleLength, dataLength);
    if sampleLength < 0 {
      assert framerate * sampleLength < 0;
    }
  }

  /** The writer draws exactly `sample_length` samples from the freshly
      armed source and writes their frames; the
      header's frame count is `framerate·sample_length` and the `nframes`
      argument plays no part. */
  lemma WriteLayout(sin: real -> real, s: Source, name: Option<string>, timestamp: string, sampleLength: int,
                    nchannels: int, sampwidth: int, framerate: int, nframes: int, nframes': int, comptype: string, compname: string)
    requires Write(sin, s, name, timestamp, sampleLength, nchannels, sampwidth, framerate, nframes, comptype, compname).Ok?
    ensures var w := Write(sin, s, name, timestamp, sampleLength, nchannels, sampwidth, framerate, nframes, comptype, compname).value;
      var count := if sampleLength < 0 then 0 else sampleLength;
      && Run(sin, ArmSource(s).value, count).Ok?
      && Frames(Run(sin, ArmSource(s).value, count).value.0, if nchannels == 2 then 2 else 1).Ok?
      && w.data == Frames(Run(sin, ArmSource(s).value, count).value.0, if nchannels == 2 then 2 else 1).value
      && w.params == WavParams(nchannels, sampwidth, framerate, framerate * sampleLength, comptype, compname)
      && Write(sin, s, name, timestamp, sampleLength, nchannels, sampwidth, framerate, nframes', comptype, compname).value == w
  {
    var count := if sampleLength < 0 then 0 else sampleLength;
    PayloadIsFramesOfDraw(Stepper(sin), ArmSource(s).value, count, if nchannels == 2 then 2 else 1);
  }

  /** When the writer succeeds: the wave module accepts the parameters, the
      source arms, `sample_length` samples can be drawn, every one of them
      rounds into the signed 16-bit range, and the header for
      `framerate·sample_length` declared frames packs. A failed arming raises
      its own exception; a drawn sample that rounds outside the range, or a
      header field that overflows, raises struct.error. */
  lemma WriteSucceeds(sin: real -> real, s: Source, name: Option<string>, timestamp: string, sampleLength: int,
                      nchannels: int, sampwidth: int, framerate: int, nframes: int, comptype: string, compname: string)
    ensures var count := if sampleLength < 0 then 0 else sampleLength;
      Write(sin, s, name, timestamp, sampleLength, nchannels, sampwidth, framerate, nframes, comptype, compname).Ok?
      <==>
      && AcceptedParams(nchannels, sampwidth, framerate, comptype)
      && ArmSource(s).Ok?
      && Run(sin, ArmSource(s).value, count).Ok?
      && (forall k :: 0 <= k < count ==> InShortRange(RoundHalfEven(Run(sin, ArmSource(s).value, count).value.0[k])))
      && HeaderPacks(nchannels, sampwidth, framerate, framerate * sampleLength, FrameStart(if nchannels == 2 then 2 else 1, count))
    ensures AcceptedParams(nchannels, sampwidth, framerate, comptype) && ArmSource(s).Err? ==>
      Write(sin, s, name, timestamp, sampleLength, nchannels, sampwidth, framerate, nframes, comptype, compname) == Err(ArmSource(s).error)
    ensures var count := if sampleLength < 0 then 0 else sampleLength;
      && AcceptedParams(nchannels, sampwidth, framerate, comptype)
      && ArmSource(s).Ok?
      && Run(sin, ArmSource(s).value, count).Ok?
      && !Write(sin, s, name, timestamp, sampleLength, nchannels, sampwidth, framerate, nframes, comptype, compname).Ok?
      ==> Write(sin, s, name, timestamp, sampleLength, nchannels, sampwidth, framerate, nframes, comptype, compname) == Err(StructRange)
  {
    if AcceptedParams(nchannels, sampwidth, framerate, comptype) && ArmSource(s).Ok? {
      var count := if sampleLength < 0 then 0 else sampleLength;
      var copies := if nchannels == 2 then 2 else 1;
      PayloadIsFramesOfDraw(Stepper(sin), ArmSource(s).value, count, copies);
      PayloadErrorIsStructRange(Stepper(sin), ArmSource(s).value, count, copies);
      assert Run(sin, ArmSource(s).value, count) == Draw(Stepper(sin), ArmSource(s).value, count);
    }
  }

  /** When every sample can be drawn, the only way the writer's loop can fail is a sample out of range. */
  lemma {:induction false} PayloadErrorIsStructRange<S>(step: Step<S>, s: S, n: nat, copies: nat)
    ensures Draw(step, s, n).Ok? && Payload(step, s, n, copies).Err? ==> Payload(step, s, n, copies).error == StructRange
    decreases n
  {
    if n > 0 && step(s).Ok? {
      DrawUnfold(step, s, n);
      PayloadErrorIsStructRange(step, step(s).value.1, n - 1, copies);
    }
  }

  /** The writer with one copy of each sample per channel, so that the data
      is always a whole number of `nchannels`-sample frames, and with the
      header declaring the `sample_length` frames actually written. */
  function WriteCorrected(sin: real -> real, s: Source, name: Option<string>, timestamp: string, sampleLength: int,
                          nchannels: int, sampwidth: int, framerate: int, nframes: int, comptype: string, compname: string): (r: Result<WavFile>)
    ensures r.Ok? ==> AcceptedParams(nchannels, sampwidth, framerate, comptype) && ArmSource(s).Ok?
    ensures !AcceptedParams(nchannels, sampwidth, framerate, comptype) ==> r == Err(BadWaveParams)
    ensures r.Ok? ==> r.value.name == NormaliseName(name, timestamp)
    ensures r.Ok? ==> |r.value.data| == FrameStart(nchannels, if sampleLength < 0 then 0 else sampleLength)
    ensures r.Ok? ==> sampleLength >= 0 && HeaderPacks(nchannels, sampwidth, framerate, sampleLength, |r.value.data|)
    ensures r.Ok? ==> r.value.params == WavParams(nchannels, sampwidth, framerate, sampleLength, comptype, compname)
  {
    var fileName := NormaliseName(name, timestamp);
    if !AcceptedParams(nchannels, sampwidth, framerate, comptype) then Err(BadWaveParams)
    else
      var armed :- ArmSource(s);
      var count := if sampleLength < 0 then 0 else sampleLength;
      var payload :- Payload(Stepper(sin), armed, count, nchannels as nat);
      if !HeaderPacks(nchannels, sampwidth, framerate, sampleLength, |payload.0|) then Err(StructRange)
      else
        NegativeFramesBreakHeader(nchannels, sampwidth, framerate, sampleLength, |payload.0|);
        Ok(WavFile(fileName, WavParams(nchannels, sampwidth, framerate, sampleLength, comptype, compname), payload.0))
  }

  /** The corrected header is exact: with 16-bit samples the declared data
      length `nframes·nchannels·sampwidth` is the number of bytes written, so
      the header needs no patching and overflows only when the data itself
      is too long for a RIFF file. */
  lemma CorrectedHeaderIsExact(sin: real -> real, s: Source, name: Option<string>, timestamp: string, sampleLength: int,
                               nchannels: int, framerate: int, nframes: int, comptype: string, compname: string)
    requires WriteCorrected(sin, s, name, timestamp, sampleLength, nchannels, 2, framerate, nframes, comptype, compname).Ok?
    ensures var w := WriteCorrected(sin, s, name, timestamp, sampleLength, nchannels, 2, framerate, nframes, comptype, compname).value;
      && w.params.nframes == sampleLength
      && w.params.nframes * nchannels * 2 == |w.data|
      && FitsU32(36 + |w.data|)
  {
    var w := WriteCorrected(sin, s, name, timestamp, sampleLength, nchannels, 2, framerate, nframes, comptype, compname).value;
    FrameStartIsProduct(nchannels, sampleLength);
    DeclaredIsWritten(nchannels, framerate, sampleLength, |w.data|);
  }

  /** When `nframes` 16-bit frames are declared and exactly those bytes are
      written, the declared data length is the written length. */
  lemma DeclaredIsWritten(nchannels: int, framerate: int, nframes: int, dataLength: nat)
    requires nchannels >= 1 && nframes >= 0 && dataLength == 2 * nchannels * nframes
    requires HeaderPacks(nchannels, 2, framerate, nframes, dataLength)
    ensures nframes * nchannels * 2 == dataLength
    ensures FitsU32(36 + dataLength)
  {
    assert DeclaredDataLength(nchannels, 2, nframes, dataLength) == dataLength by {
      if nframes == 0 {
        assert dataLength == 0;
      } else {
        assert nframes * (nchannels * 2) == 2 * nchannels * nframes;
      }
    }
  }

  /** As written, the header declares `framerate` times the frames the loop
      writes. At 44100 Hz, stereo, 16 bits, its RIFF size `36 + 44100·L·4`
      passes 2³²−1 from `L = 24348`, so every such write raises struct.error,
      although the 97392 bytes of data would fit; at `L = 24347` the header
      still packs. */
  lemma DefaultHeaderOverflows(sin: real -> real, s: Source, name: Option<string>, timestamp: string,
                               sampleLength: int, nframes: int, compname: string)
    requires sampleLength >= 24348
    ensures !Write(sin, s, name, timestamp, sampleLength, 2, 2, 44100, nframes, "NONE", compname).Ok?
    ensures sampleLength <= 1_000_000 ==> FitsU32(36 + FrameStart(2, sampleLength))
    ensures HeaderPacks(2, 2, 44100, 44100 * 24347, FrameStart(2, 24347))
  {
    var declared := DeclaredDataLength(2, 2, 44100 * sampleLength, FrameStart(2, sampleLength));
    assert declared == 44100 * sampleLength * 4;
    assert 36 + declared > MaxU32;
    FrameStartIsProduct(2, sampleLength);
    FrameStartIsProduct(2, 24347);
    assert DeclaredDataLength(2, 2, 44100 * 24347, FrameStart(2, 24347)) == 4294810800;
  }

  /** The corrected writer's data is exactly `sample_length` frames of
      `nchannels` two-byte samples, and every channel of frame `k` carries
      sample `k` of the freshly armed source. */
  lemma CorrectedFramesAreWhole(sin: real -> real, s: Source, name: Option<string>, timestamp: string, sampleLength: int,
                                nchannels: int, sampwidth: int, framerate: int, nframes: int, comptype: string, compname: string, k: nat, j: nat)
    requires WriteCorrected(sin, s, name, timestamp, sampleLength, nchannels, sampwidth, framerate, nframes, comptype, compname).Ok?
    ensures var data := WriteCorrected(sin, s, name, timestamp, sampleLength, nchannels, sampwidth, framerate, nframes, comptype, compname).value.data;
      |data| == 2 * nchannels * (if sampleLength < 0 then 0 else sampleLength)
    ensures var data := WriteCorrected(sin, s, name, timestamp, sampleLength, nchannels, sampwidth, framerate, nframes, comptype, compname).value.data;
      var count := if sampleLength < 0 then 0 else sampleLength;
      k < count && j < nchannels ==>
        && Run(sin, ArmSource(s).value, count).Ok?
        && FrameStart(nchannels, k) + 2 * j + 2 <= |data|
        && Encode(Run(sin, ArmSource(s).value, count).value.0[k]).Ok?
        && data[FrameStart(nchannels, k) + 2 * j..FrameStart(nchannels, k) + 2 * j + 2] == Encode(Run(sin, ArmSource(s).value, count).value.0[k]).value
  {
    var count := if sampleLength < 0 then 0 else sampleLength;
    FrameStartIsProduct(nchannels, count);
    PayloadIsFramesOfDraw(Stepper(sin), ArmSource(s).value, count, nchannels);
    if k < count && j < nchannels {
      FramesLayout(Run(sin, ArmSource(s).value, count).value.0, nchannels, k, j);
    }
  }

  /** As written, three channels get one copy per sample: one drawn sample
      leaves two bytes, a third of one 6-byte frame. */
  lemma ThreeChannelsSplitFrames(sin: real -> real, s: Source, name: Option<string>, timestamp: string,
                                 framerate: int, nframes: int, compname: string)
    requires Write(sin, s, name, timestamp, 1, 3, 2, framerate, nframes, "NONE", compname).Ok?
    ensures |Write(sin, s, name, timestamp, 1, 3, 2, framerate, nframes, "NONE", compname).value.data| == 2
    ensures |Write(sin, s, name, timestamp, 1, 3, 2, framerate, nframes, "NONE", compname).value.data| % (2 * 3) != 0
  {
    assert FrameStart(1, 1) == 2;
  }

  lemma EncodeHalf()
    ensures Encode(0.5) == Ok([0, 0])
  {
    RoundHalves();
  }

  /** A concrete case: a default-range Sawtooth at phase 0 written for one
      sample to a three-channel, 16-bit, 44100 Hz file. */
  lemma ThreeChannelWitness(sin: real -> real)
    ensures var o := New(Sawtooth, 440.0, 0.0, 1.0, 44100.0, -1.0, 1.0);
      Write(sin, Single(o), Some("A"), "", 1, 3, 2, 44100, 0, "NONE", "not compressed").Ok?
  {
    var o := New(Sawtooth, 440.0, 0.0, 1.0, 44100.0, -1.0, 1.0);
    FirstSawtoothSample(sin, o);
    var armed := Single(Arm(o).value);
    assert ArmSource(Single(o)) == Ok(armed);
    var step := Next(sin, Arm(o).value).value;
    assert step.0 == 0.5 by {
      assert Squish(0.5, -1.0, 1.0) == 0.5;
    }
    assert NextSource(sin, armed) == Ok((0.5, Single(step.1)));
    assert Stepper(sin)(armed) == NextSource(sin, armed);
    EncodeHalf();
    assert Payload(Stepper(sin), Single(step.1), 0, 1) == Ok(([], Single(step.1)));
    assert Payload(Stepper(sin), armed, 1, 1).Ok?;
    assert AcceptedParams(3, 2, 44100, "NONE");
    assert DeclaredDataLength(3, 2, 44100, 2) == 264600;
    assert HeaderPacks(3, 2, 44100, 44100, 2);
  }
}
