/** The DSP stage PixelPlayer inserts into the media3 playback chain: gain
    (pre-amp times ReplayGain), the 32-band equaliser, then a peak limiter,
    applied to interleaved 32-bit float PCM. */
module TitanAudio {
  import opened TitanEq
  import IntArith

  // ---------------------------------------------------------------------------
  // Formats
  // ---------------------------------------------------------------------------

  /** media3's `C.ENCODING_PCM_FLOAT`. */
  const EncodingPcmFloat: int := 4

  datatype AudioFormat = AudioFormat(sampleRate: int, channelCount: int, encoding: int)

  /** The format the processor asks for: the input's rate and channel count,
      as float PCM, whatever the input's encoding was. */
  function OnConfigure(input: AudioFormat): (r: AudioFormat)
    ensures r.sampleRate == input.sampleRate && r.channelCount == input.channelCount
    ensures r.encoding == EncodingPcmFloat
  {
    AudioFormat(input.sampleRate, input.channelCount, EncodingPcmFloat)
  }

  /** Configuring with the format it asks for asks for the same format again. */
  lemma OnConfigureIsIdempotent(f: AudioFormat)
    ensures OnConfigure(OnConfigure(f)) == OnConfigure(f)
    ensures OnConfigure(f) == f <==> f.encoding == EncodingPcmFloat
  {
  }

  // ---------------------------------------------------------------------------
  // One sample
  // ---------------------------------------------------------------------------

  /** 10^(db/20): a level in decibels as a linear gain. */
  function DbToLinear(m: FloatMath, db: real): real {
    m.Pow(10.0, db / 20.0)
  }

  /** The gain every sample receives: pre-amp times ReplayGain. */
  function TotalGain(preAmp: real, replay: real): real {
    preAmp * replay
  }

  /** A sample scaled by the total gain. */
  function Gained(x: real, gain: real): real {
    x * gain
  }

  /** `coerceIn(-1, 1)`: the peak limiter. */
  function Clamp(x: real): (r: real)
    ensures -1.0 <= r <= 1.0
    ensures -1.0 <= x <= 1.0 <==> r == x
    ensures x < -1.0 ==> r == -1.0
    ensures x > 1.0 ==> r == 1.0
  {
    if x < -1.0 then -1.0 else if x > 1.0 then 1.0 else x
  }

  /** Limiting a limited signal changes nothing, and the limiter keeps order. */
  lemma ClampIsMonotoneAndIdempotent(x: real, y: real)
    ensures Clamp(Clamp(x)) == Clamp(x)
    ensures x <= y ==> Clamp(x) <= Clamp(y)
  {
  }

  /** The equaliser filters of both sides: even channels go through `left`,
      odd channels through `right`. */
  datatype Sampled = Sampled(out: real, left: seq<FilterState>, right: seq<FilterState>)

  /** One sample of channel `c`: gain, then the equaliser of the channel's
      side when it is on, then the limiter. */
  function SampleStep(gain: real, eqOn: bool, bands: seq<TitanEqBand>, c: nat,
                      left: seq<FilterState>, right: seq<FilterState>, x: real): (r: Sampled)
    ensures -1.0 <= r.out <= 1.0
    ensures !eqOn ==> r.left == left && r.right == right
    ensures c % 2 == 0 ==> r.right == right
    ensures c % 2 == 1 ==> r.left == left
  {
    var s := Gained(x, gain);
    if !eqOn then Sampled(Clamp(s), left, right)
    else if c % 2 == 0 then
      var r := Cascade(bands, left, s);
      Sampled(Clamp(r.out), r.states, right)
    else
      var r := Cascade(bands, right, s);
      Sampled(Clamp(r.out), left, r.states)
  }

  /** Whether channel `c` goes through the left filters. */
  predicate IsLeftChannel(c: nat) {
    c % 2 == 0
  }

  // ---------------------------------------------------------------------------
  // A buffer of interleaved samples
  // ---------------------------------------------------------------------------

  datatype Chained = Chained(outs: seq<real>, left: seq<FilterState>, right: seq<FilterState>)

  /** What `queueInput` does to interleaved samples `xs`: sample k belongs to
      channel k mod channelCount and is processed in order. */
  function RunChain(gain: real, eqOn: bool, bands: seq<TitanEqBand>, channelCount: nat,
                    left: seq<FilterState>, right: seq<FilterState>, xs: seq<real>): (r: Chained)
    requires channelCount >= 1
    ensures |r.outs| == |xs|
    ensures forall k :: 0 <= k < |r.outs| ==> -1.0 <= r.outs[k] <= 1.0
    decreases |xs|
  {
    if xs == [] then Chained([], left, right)
    else
      var p := RunChain(gain, eqOn, bands, channelCount, left, right, xs[..|xs| - 1]);
      var s := SampleStep(gain, eqOn, bands, (|xs| - 1) % channelCount, p.left, p.right, xs[|xs| - 1]);
      Chained(p.outs + [s.out], s.left, s.right)
  }

  /** The chain over the first pos + 1 samples is the chain over the first
      pos, followed by sample pos on its channel. */
  lemma RunChainStep(gain: real, eqOn: bool, bands: seq<TitanEqBand>, channelCount: nat,
                     left: seq<FilterState>, right: seq<FilterState>, xs: seq<real>, pos: nat)
    requires channelCount >= 1 && pos < |xs|
    ensures var p := RunChain(gain, eqOn, bands, channelCount, left, right, xs[..pos]);
            var s := SampleStep(gain, eqOn, bands, pos % channelCount, p.left, p.right, xs[pos]);
            RunChain(gain, eqOn, bands, channelCount, left, right, xs[..pos + 1]) == Chained(p.outs + [s.out], s.left, s.right)
  {
    assert xs[..pos + 1][..pos] == xs[..pos];
  }

  /** With the equaliser off, every output is the gained input, limited, and
      no filter is touched. */
  lemma {:induction false} EqOffIsGainThenLimit(gain: real, bands: seq<TitanEqBand>, channelCount: nat,
                                                left: seq<FilterState>, right: seq<FilterState>, xs: seq<real>)
    requires channelCount >= 1
    ensures var r := RunChain(gain, false, bands, channelCount, left, right, xs);
            r.left == left && r.right == right &&
            forall k :: 0 <= k < |xs| ==> r.outs[k] == Clamp(Gained(xs[k], gain))
    decreases |xs|
  {
    if xs != [] {
      EqOffIsGainThenLimit(gain, bands, channelCount, left, right, xs[..|xs| - 1]);
    }
  }

  /** A mono stream only ever goes through the left filters. */
  lemma {:induction false} MonoLeavesRightUntouched(gain: real, eqOn: bool, bands: seq<TitanEqBand>,
                                                    left: seq<FilterState>, right: seq<FilterState>, xs: seq<real>)
    ensures RunChain(gain, eqOn, bands, 1, left, right, xs).right == right
    decreases |xs|
  {
    if xs != [] {
      MonoLeavesRightUntouched(gain, eqOn, bands, left, right, xs[..|xs| - 1]);
    }
  }

  /** Channel isolation: the outputs of the channels routed to the left filters,
      and the left filters themselves, depend only on those channels' samples.
      Whatever the odd channels carry, and whatever the right filters held
      before, the even channels sound the same. */
  lemma {:induction false} LeftChannelsAreIsolated(gain: real, eqOn: bool, bands: seq<TitanEqBand>, channelCount: nat,
                                                   left: seq<FilterState>, right1: seq<FilterState>, right2: seq<FilterState>,
                                                   xs: seq<real>, ys: seq<real>)
    requires channelCount >= 1 && |xs| == |ys|
    requires forall k :: 0 <= k < |xs| && IsLeftChannel(k % channelCount) ==> xs[k] == ys[k]
    ensures var r1, r2 := RunChain(gain, eqOn, bands, channelCount, left, right1, xs),
                          RunChain(gain, eqOn, bands, channelCount, left, right2, ys);
            r1.left == r2.left &&
            forall k :: 0 <= k < |xs| && IsLeftChannel(k % channelCount) ==> r1.outs[k] == r2.outs[k]
    decreases |xs|
  {
    if xs != [] {
      var n := |xs| - 1;
      LeftChannelsAreIsolated(gain, eqOn, bands, channelCount, left, right1, right2, xs[..n], ys[..n]);
    }
  }

  /** After a flush, the output no longer depends on the audio heard before:
      two chains whose filters carry the same coefficients behave alike. */
  lemma FlushForgetsHistory(gain: real, eqOn: bool, bands: seq<TitanEqBand>, channelCount: nat,
                            l1: seq<FilterState>, r1: seq<FilterState>, l2: seq<FilterState>, r2: seq<FilterState>,
                            xs: seq<real>)
    requires channelCount >= 1 && |l1| == |l2| && |r1| == |r2|
    requires forall j :: 0 <= j < |l1| ==> l1[j].coeffs == l2[j].coeffs
    requires forall j :: 0 <= j < |r1| ==> r1[j].coeffs == r2[j].coeffs
    ensures RunChain(gain, eqOn, bands, channelCount, ResetAll(l1), ResetAll(r1), xs) ==
            RunChain(gain, eqOn, bands, channelCount, ResetAll(l2), ResetAll(r2), xs)
  {
    assert ResetAll(l1) == ResetAll(l2);
    assert ResetAll(r1) == ResetAll(r2);
  }

  /** A 20 dB pre-amp (10x) pushes 0.5 and -0.5 to the limits, not past them. */
  lemma PeakLimiterExample(m: FloatMath, left: seq<FilterState>, right: seq<FilterState>)
    requires DbToLinear(m, 20.0) == 10.0
    ensures RunChain(TotalGain(DbToLinear(m, 20.0), 1.0), false, [], 2, left, right, [0.5, -0.5]).outs == [1.0, -1.0]
  {
    var xs := [0.5, -0.5];
    EqOffIsGainThenLimit(10.0, [], 2, left, right, xs);
  }

  /** A pre-amp of 2x doubles a quiet stereo frame. */
  lemma PreAmpGainExample(m: FloatMath, left: seq<FilterState>, right: seq<FilterState>)
    requires DbToLinear(m, 6.0206) == 2.0
    ensures RunChain(TotalGain(DbToLinear(m, 6.0206), 1.0), false, [], 2, left, right, [0.4, 0.4]).outs == [0.8, 0.8]
  {
    var xs := [0.4, 0.4];
    EqOffIsGainThenLimit(2.0, [], 2, left, right, xs);
  }

  // ---------------------------------------------------------------------------
  // The processor object
  // ---------------------------------------------------------------------------

  /** Number of equaliser slots the processor allocates. */
  const NumBands: nat := 32

  class TitanAudioProcessor {
    var preAmpGain: real
    var replayGain: real
    var eqEnabled: bool
    const eqCore: TitanEqCore
    var bands: seq<TitanEqBand>

    ghost predicate Valid()
      reads this, eqCore, eqCore.filtersL, eqCore.filtersR
    {
      eqCore.numBands == NumBands && eqCore.Valid()
    }

    constructor()
      ensures Valid() && fresh(eqCore) && fresh(eqCore.ReprL) && fresh(eqCore.ReprR)
      ensures preAmpGain == 1.0 && replayGain == 1.0 && !eqEnabled && bands == []
      ensures eqCore.currentBands == []
      ensures forall i :: 0 <= i < NumBands ==>
                eqCore.filtersL[i].State() == Unconfigured && eqCore.filtersR[i].State() == Unconfigured
    {
      preAmpGain := 1.0;
      replayGain := 1.0;
      eqEnabled := false;
      eqCore := new TitanEqCore(NumBands);
      bands := [];
    }

    /** Sets the pre-amp from decibels; nothing else changes. */
    method SetPreAmp(m: FloatMath, db: real)
      modifies this
      ensures preAmpGain == DbToLinear(m, db)
      ensures replayGain == old(replayGain) && eqEnabled == old(eqEnabled) && bands == old(bands)
    {
      preAmpGain := m.Pow(10.0, db / 20.0);
    }

    /** Sets the ReplayGain adjustment from decibels; nothing else changes. */
    method SetReplayGain(m: FloatMath, db: real)
      modifies this
      ensures replayGain == DbToLinear(m, db)
      ensures preAmpGain == old(preAmpGain) && eqEnabled == old(eqEnabled) && bands == old(bands)
    {
      replayGain := m.Pow(10.0, db / 20.0);
    }

    method SetEqEnabled(enabled: bool)
      modifies this
      ensures eqEnabled == enabled
      ensures preAmpGain == old(preAmpGain) && replayGain == old(replayGain) && bands == old(bands)
    {
      eqEnabled := enabled;
    }

    /** Stores the band list; only an active processor passes it on to the
        equaliser, designed for the input's sample rate. */
    method SetEqBands(m: FloatMath, newBands: seq<TitanEqBand>, isActive: bool, sampleRate: int)
      requires Valid()
      modifies this, eqCore, eqCore.ReprL, eqCore.ReprR
      ensures Valid() && bands == newBands
      ensures preAmpGain == old(preAmpGain) && replayGain == old(replayGain) && eqEnabled == old(eqEnabled)
      ensures isActive ==>
                eqCore.currentBands == newBands &&
                eqCore.Left() == Configure(m, sampleRate as real, newBands, old(eqCore.Left())) &&
                eqCore.Right() == Configure(m, sampleRate as real, newBands, old(eqCore.Right()))
      ensures !isActive ==>
                eqCore.currentBands == old(eqCore.currentBands) &&
                eqCore.Left() == old(eqCore.Left()) && eqCore.Right() == old(eqCore.Right())
    {
      ghost var ls, rs := eqCore.Left(), eqCore.Right();
      bands := newBands;
      assert eqCore.Left() == ls && eqCore.Right() == rs;
      if isActive {
        eqCore.Setup(m, sampleRate as real, bands);
      }
    }

    /** One pass of the inner loop of `queueInput`: a sample of channel `c`. */
    method ProcessSample(x: real, totalGain: real, c: nat) returns (sample: real)
      requires Valid()
      modifies eqCore.ReprL, eqCore.ReprR
      ensures Valid()
      ensures Sampled(sample, eqCore.Left(), eqCore.Right()) ==
              SampleStep(totalGain, eqEnabled, eqCore.currentBands, c, old(eqCore.Left()), old(eqCore.Right()), x)
    {
      sample := Gained(x, totalGain);
      if eqEnabled {
        if c % 2 == 0 {
          sample := eqCore.ProcessL(sample);
        } else {
          sample := eqCore.ProcessR(sample);
        }
      }
      sample := Clamp(sample);
    }

    /** Processes one buffer of interleaved float samples. */
    method QueueInput(input: seq<real>, channelCount: nat) returns (output: seq<real>)
      requires Valid() && channelCount >= 1
      modifies eqCore.ReprL, eqCore.ReprR
      ensures Valid()
      ensures var r := RunChain(TotalGain(preAmpGain, replayGain), eqEnabled, eqCore.currentBands, channelCount,
                                old(eqCore.Left()), old(eqCore.Right()), input);
              output == r.outs && eqCore.Left() == r.left && eqCore.Right() == r.right
    {
      if |input| == 0 {
        return [];
      }
      ghost var left0, right0 := eqCore.Left(), eqCore.Right();

      var totalGain := TotalGain(preAmpGain, replayGain);
      output := [];
      var pos := 0;
      while pos < |input|
        invariant 0 <= pos <= |input| && (pos < |input| ==> pos % channelCount == 0)
        invariant Valid()
        invariant var r := RunChain(totalGain, eqEnabled, eqCore.currentBands, channelCount, left0, right0, input[..pos]);
                  output == r.outs && eqCore.Left() == r.left && eqCore.Right() == r.right
        decreases |input| - pos
      {
        ghost var start := pos;
        var c := 0;
        while c < channelCount
          invariant 0 <= c <= channelCount && pos == start + c && pos <= |input|
          invariant pos % channelCount == if c == channelCount then 0 else c
          invariant Valid()
          invariant var r := RunChain(totalGain, eqEnabled, eqCore.currentBands, channelCount, left0, right0, input[..pos]);
                    output == r.outs && eqCore.Left() == r.left && eqCore.Right() == r.right
        {
          if pos >= |input| {
            break;
          }
          IntArith.NextRemainder(pos, channelCount);
          RunChainStep(totalGain, eqEnabled, eqCore.currentBands, channelCount, left0, right0, input, pos);
          var sample := ProcessSample(input[pos], totalGain, c);
          output := output + [sample];
          pos := pos + 1;
          c := c + 1;
        }
      }
      assert input[..pos] == input;
    }

    /** `onFlush`: every filter history is zeroed; gains, switches and bands stay. */
    method OnFlush()
      requires Valid()
      modifies eqCore.ReprL, eqCore.ReprR
      ensures Valid()
      ensures eqCore.Left() == ResetAll(old(eqCore.Left())) && eqCore.Right() == ResetAll(old(eqCore.Right()))
    {
      eqCore.Reset();
    }

    /** `onReset`: the same as a flush, as far as this processor is concerned. */
    method OnReset()
      requires Valid()
      modifies eqCore.ReprL, eqCore.ReprR
      ensures Valid()
      ensures eqCore.Left() == ResetAll(old(eqCore.Left())) && eqCore.Right() == ResetAll(old(eqCore.Right()))
    {
      eqCore.Reset();
    }
  }
}
