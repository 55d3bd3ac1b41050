/** `WavePlayer.play` as bound last (the second definition in the class):
    arm the source, allocate `rate·nchannels·length` four-byte slots, and
    fill slot `i` with the float packing of sample `i`. The stereo branch
    packs every value twice into the same slot.
 */
module WavePlayer {
  import opened Outcomes
  import opened Streams
  import opened Sources
  import opened Pcm

  /** `struct.pack("f", v)`, kept abstract: four bytes, or `None` when the
      value is too large for a 32-bit float. */
  type Encoder = real -> Option<Float32Bytes>

  /** One packed sample; an unrepresentable value raises. */
  function Pack(enc: Encoder, v: real): (r: Result<Float32Bytes>)
    ensures r.Ok? <==> enc(v).Some?
    ensures r.Err? ==> r.error == FloatOverflow
    ensures r.Ok? ==> r.value == enc(v).value
  {
    match enc(v)
    case None => Err(FloatOverflow)
    case Some(bytes) => Ok(bytes)
  }

  /** `bytearray(count)`: `count` zero bytes. */
  function Zeros(count: nat): (r: seq<byte>)
    ensures |r| == count && forall i :: 0 <= i < count ==> r[i] == 0
  {
    seq(count, _ => 0)
  }

  /** The playing loop from slot `i` on: draw `n` samples, packing each into
      its slot, a second time into the same slot when `twice`. */
  function Fill<S>(step: Step<S>, enc: Encoder, s: S, buf: seq<byte>, i: nat, n: nat, twice: bool): (r: Result<(seq<byte>, S)>)
    requires 4 * (i + n) <= |buf|
    ensures r.Ok? ==> |r.value.0| == |buf|
    decreases n
  {
    if n == 0 then Ok((buf, s))
    else
      var first :- step(s);
      var bytes :- Pack(enc, first.0);
      var once := PackInto(buf, 4 * i, bytes);
      var written := if twice then PackInto(once, 4 * i, bytes) else once;
      Fill(step, enc, first.1, written, i + 1, n - 1, twice)
  }

  /** Packing every value twice at the same offset fills the buffer exactly
      as packing it once: the stereo branch is the mono branch. */
  lemma {:induction false} FillTwiceIsOnce<S>(step: Step<S>, enc: Encoder, s: S, buf: seq<byte>, i: nat, n: nat)
    requires 4 * (i + n) <= |buf|
    ensures Fill(step, enc, s, buf, i, n, true) == Fill(step, enc, s, buf, i, n, false)
    decreases n
  {
    if n > 0 && step(s).Ok? && enc(step(s).value.0).Some? {
      var first := step(s).value;
      var bytes := enc(first.0).value;
      PackIntoIdempotent(buf, 4 * i, bytes);
      FillTwiceIsOnce(step, enc, first.1, PackInto(buf, 4 * i, bytes), i + 1, n - 1);
    }
  }

  /** One turn of the loop: pack the first sample into slot `i`, then go on from slot `i + 1`. */
  lemma FillStep<S>(step: Step<S>, enc: Encoder, s: S, buf: seq<byte>, i: nat, n: nat)
    requires 4 * (i + n) <= |buf| && n > 0
    requires step(s).Ok? && enc(step(s).value.0).Some?
    ensures var first := step(s).value;
      Fill(step, enc, s, buf, i, n, false)
        == Fill(step, enc, first.1, PackInto(buf, 4 * i, enc(first.0).value), i + 1, n - 1, false)
  {
  }

  /** The loop fails exactly when the run fails or one of its samples cannot be packed. */
  lemma {:induction false} FillSucceeds<S>(step: Step<S>, enc: Encoder, s: S, buf: seq<byte>, i: nat, n: nat)
    requires 4 * (i + n) <= |buf|
    ensures Fill(step, enc, s, buf, i, n, false).Ok? <==>
      Draw(step, s, n).Ok? && forall k :: 0 <= k < n ==> enc(Draw(step, s, n).value.0[k]).Some?
    ensures Fill(step, enc, s, buf, i, n, false).Ok? ==> Fill(step, enc, s, buf, i, n, false).value.1 == Draw(step, s, n).value.1
    decreases n
  {
    if n > 0 && step(s).Ok? {
      var first := step(s).value;
      DrawUnfold(step, s, n);
      if enc(first.0).Some? {
        var once := PackInto(buf, 4 * i, enc(first.0).value);
        FillStep(step, enc, s, buf, i, n);
        FillSucceeds(step, enc, first.1, once, i + 1, n - 1);
        if Draw(step, s, n).Ok? {
          var vals := Draw(step, s, n).value.0;
          var rest := Draw(step, first.1, n - 1).value.0;
          assert vals == [first.0] + rest;
          if forall k :: 0 <= k < n ==> enc(vals[k]).Some? {
            forall k | 0 <= k < n - 1
              ensures enc(rest[k]).Some?
            {
              assert rest[k] == vals[k + 1];
            }
          }
          if forall k :: 0 <= k < n - 1 ==> enc(rest[k]).Some? {
            forall k | 0 <= k < n
              ensures enc(vals[k]).Some?
            {
              if k > 0 {
                assert vals[k] == rest[k - 1];
              }
            }
          }
        }
      } else if Draw(step, s, n).Ok? {
        assert Draw(step, s, n).value.0[0] == first.0;
      }
    }
  }

  /** The loop leaves every byte before slot `i` and after its last slot as it was. */
  lemma {:induction false} FillKeepsOutside<S>(step: Step<S>, enc: Encoder, s: S, buf: seq<byte>, i: nat, n: nat)
    requires 4 * (i + n) <= |buf| && Fill(step, enc, s, buf, i, n, false).Ok?
    ensures var out := Fill(step, enc, s, buf, i, n, false).value.0;
      out[..4 * i] == buf[..4 * i] && out[4 * (i + n)..] == buf[4 * (i + n)..]
    decreases n
  {
    if n > 0 {
      var first := step(s).value;
      var once := PackInto(buf, 4 * i, enc(first.0).value);
      FillStep(step, enc, s, buf, i, n);
      FillKeepsOutside(step, enc, first.1, once, i + 1, n - 1);
      var out := Fill(step, enc, s, buf, i, n, false).value.0;
      assert out[..4 * i] == out[..4 * (i + 1)][..4 * i];
      assert once[..4 * i] == buf[..4 * i];
      assert once[4 * (i + n)..] == buf[4 * (i + n)..];
    }
  }

  /** The first drawn sample lands in slot `i` and stays there. */
  lemma FillFirstSlot<S>(step: Step<S>, enc: Encoder, s: S, buf: seq<byte>, i: nat, n: nat)
    requires 4 * (i + n) <= |buf| && n > 0 && Fill(step, enc, s, buf, i, n, false).Ok?
    ensures step(s).Ok? && enc(step(s).value.0).Some?
    ensures Fill(step, enc, s, buf, i, n, false).value.0[4 * i..4 * i + 4] == enc(step(s).value.0).value
  {
    var first := step(s).value;
    var once := PackInto(buf, 4 * i, enc(first.0).value);
    FillStep(step, enc, s, buf, i, n);
    FillKeepsOutside(step, enc, first.1, once, i + 1, n - 1);
    var out := Fill(step, enc, s, buf, i, n, false).value.0;
    assert out[..4 * (i + 1)] == once[..4 * (i + 1)];
    assert out[4 * i..4 * i + 4] == out[..4 * (i + 1)][4 * i..];
    assert once[4 * i..4 * i + 4] == once[..4 * (i + 1)][4 * i..];
  }

  /** The loop packs the drawn samples into consecutive slots from `i` on. */
  lemma {:induction false} FillLayout<S>(step: Step<S>, enc: Encoder, s: S, buf: seq<byte>, i: nat, n: nat)
    requires 4 * (i + n) <= |buf| && Fill(step, enc, s, buf, i, n, false).Ok?
    ensures Draw(step, s, n).Ok?
    ensures var out := Fill(step, enc, s, buf, i, n, false).value.0;
      var vals := Draw(step, s, n).value.0;
      forall k :: 0 <= k < n ==> enc(vals[k]).Some? && out[4 * (i + k)..4 * (i + k) + 4] == enc(vals[k]).value
    decreases n
  {
    FillSucceeds(step, enc, s, buf, i, n);
    if n > 0 {
      FillFirstSlot(step, enc, s, buf, i, n);
      var first := step(s).value;
      var once := PackInto(buf, 4 * i, enc(first.0).value);
      FillStep(step, enc, s, buf, i, n);
      FillLayout(step, enc, first.1, once, i + 1, n - 1);
      DrawUnfold(step, s, n);
      var vals := Draw(step, s, n).value.0;
      var rest := Draw(step, first.1, n - 1).value.0;
      forall k | 0 <= k < n
        ensures enc(vals[k]).Some?
        ensures Fill(step, enc, s, buf, i, n, false).value.0[4 * (i + k)..4 * (i + k) + 4] == enc(vals[k]).value
      {
        if k > 0 {
          assert vals[k] == rest[k - 1];
          assert 4 * (i + k) == 4 * ((i + 1) + (k - 1));
        }
      }
    }
  }

  /** The loop over a freshly allocated buffer, mono or stereo: it succeeds
      exactly when the draw does and every sample packs, and slot `k` then
      holds the packing of sample `k`. */
  lemma FillFresh<S>(step: Step<S>, enc: Encoder, s: S, n: nat, twice: bool)
    ensures Fill(step, enc, s, Zeros(4 * n), 0, n, twice).Ok? <==>
      Draw(step, s, n).Ok? && forall k :: 0 <= k < n ==> enc(Draw(step, s, n).value.0[k]).Some?
    ensures Fill(step, enc, s, Zeros(4 * n), 0, n, twice).Ok? ==>
      forall k :: 0 <= k < n ==>
        Fill(step, enc, s, Zeros(4 * n), 0, n, twice).value.0[4 * k..4 * k + 4] == enc(Draw(step, s, n).value.0[k]).value
  {
    var buf := Zeros(4 * n);
    FillTwiceIsOnce(step, enc, s, buf, 0, n);
    FillSucceeds(step, enc, s, buf, 0, n);
    if Fill(step, enc, s, buf, 0, n, false).Ok? {
      FillLayout(step, enc, s, buf, 0, n);
      var out := Fill(step, enc, s, buf, 0, n, false).value.0;
      forall k | 0 <= k < n
        ensures out[4 * k..4 * k + 4] == enc(Draw(step, s, n).value.0[k]).value
      {
        assert 4 * (0 + k) == 4 * k;
      }
    }
  }

  /** `play(gen, length)`: the frame count is `rate·nchannels·length`; the
      source is armed first, then a negative count fails the allocation, then
      the buffer is filled; the filled buffer is what gets written. */
  function Play(sin: real -> real, enc: Encoder, s: Source, rate: int, nchannels: int, length: int): (r: Result<seq<byte>>)
    ensures r.Ok? ==> ArmSource(s).Ok? && rate * nchannels * length >= 0
    ensures r.Ok? ==> |r.value| == 4 * (rate * nchannels * length)
    ensures ArmSource(s).Ok? && rate * nchannels * length < 0 ==> r == Err(NegativeCount)
  {
    var nframes := rate * nchannels * length;
    var armed :- ArmSource(s);
    if nframes < 0 then Err(NegativeCount)
    else
      var filled :- Fill(Stepper(sin), enc, armed, Zeros(4 * nframes), 0, nframes, nchannels == 2);
      Ok(filled.0)
  }

  /** Slot `k` of the played buffer holds the packing of sample `k` of the
      freshly armed source; playing succeeds exactly when arming succeeds,
      the count is not negative, the run succeeds and every sample packs. */
  lemma PlayLayout(sin: real -> real, enc: Encoder, s: Source, rate: int, nchannels: int, length: int)
    ensures var nframes := rate * nchannels * length;
      Play(sin, enc, s, rate, nchannels, length).Ok? <==>
        && ArmSource(s).Ok? && nframes >= 0
        && Run(sin, ArmSource(s).value, nframes).Ok?
        && forall k :: 0 <= k < nframes ==> enc(Run(sin, ArmSource(s).value, nframes).value.0[k]).Some?
    ensures var nframes := rate * nchannels * length;
      Play(sin, enc, s, rate, nchannels, length).Ok? ==>
        forall k :: 0 <= k < nframes ==>
          Play(sin, enc, s, rate, nchannels, length).value[4 * k..4 * k + 4]
            == enc(Run(sin, ArmSource(s).value, nframes).value.0[k]).value
  {
    var nframes := rate * nchannels * length;
    if ArmSource(s).Ok? && nframes >= 0 {
      var armed := ArmSource(s).value;
      FillFresh(Stepper(sin), enc, armed, nframes, nchannels == 2);
      assert Run(sin, armed, nframes) == Draw(Stepper(sin), armed, nframes);
    }
  }

  /** The buffer depends on the channel count only through the frame count:
      stereo at rate `r` plays exactly what mono plays at rate `2·r`. */
  lemma PlayDependsOnFrameCount(sin: real -> real, enc: Encoder, s: Source,
                                rate: int, nchannels: int, length: int, rate': int, nchannels': int, length': int)
    requires rate * nchannels * length == rate' * nchannels' * length'
    ensures Play(sin, enc, s, rate, nchannels, length) == Play(sin, enc, s, rate', nchannels', length')
  {
    var nframes := rate * nchannels * length;
    if ArmSource(s).Ok? && nframes >= 0 {
      var armed := ArmSource(s).value;
      var buf := Zeros(4 * nframes);
      FillTwiceIsOnce(Stepper(sin), enc, armed, buf, 0, nframes);
    }
  }
}
