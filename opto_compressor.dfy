/** The compressor engine, `OptoCompressor`: its parameter setters, its lifecycle
    (`prepare`, `reset`), the per-sample optical-cell update and the in-place block
    processing with its meters. The block is specified by `RunCell`, `RunGains` and
    `MixFrames`, pure functions of the buffer's frames and the cell state on entry. */
module Compressor {
  import opened Numerics
  import opened AudioBuffer
  import opened GainCurve
  import opened OpticalCell

  /** Sum of the squares of one frame's samples, accumulated channel by channel. */
  function SumSquares(frame: seq<real>): (r: real)
    ensures r >= 0.0
  {
    if |frame| == 0 then 0.0
    else
      var x := frame[|frame| - 1];
      assert x * x >= 0.0 by { if x < 0.0 { ScaleSign(-x, -x); } else { ScaleSign(x, x); } }
      SumSquares(frame[..|frame| - 1]) + x * x
  }

  /** The mean of the squares over the channels. The block is only read when it has a
      channel; the empty frame is given 0 to keep the function total. */
  function MeanSquare(frame: seq<real>): (r: real)
    ensures r >= 0.0
  {
    if |frame| == 0 then 0.0 else SumSquares(frame) / |frame| as real
  }

  /** The stereo-linked detector: RMS over the channels of one frame, in dB, offset by
      0.0001 before conversion so that silence stays finite. */
  function InputLevelDb(m: Math, frame: seq<real>): real
  {
    GainToDecibels(m, Sqrt(m, MeanSquare(frame)) + 0.0001)
  }

  /** One output sample: the dry sample crossfaded with the dry sample times the cell's
      gain and the makeup gain. */
  function MixSample(dry: real, gain: real, s: Settings): real
  {
    var wet := dry * gain * s.makeupGain;
    dry * (1.0 - s.mix) + wet * s.mix
  }

  /** The factor one sample's channels are all multiplied by. */
  function MixFactor(gain: real, s: Settings): real
  {
    (1.0 - s.mix) + gain * s.makeupGain * s.mix
  }

  /** One frame through the gain stage; `MixRowEntries` gives it channel by channel. */
  function MixRow(frame: seq<real>, gain: real, s: Settings): (out: seq<real>)
    ensures |out| == |frame|
  {
    if |frame| == 0 then []
    else MixRow(frame[..|frame| - 1], gain, s) + [MixSample(frame[|frame| - 1], gain, s)]
  }

  /** The buffer after the gain stage: frame `i` mixed with the cell gain of sample `i`. */
  function MixFrames(frames: seq<seq<real>>, gains: seq<real>, s: Settings): (out: seq<seq<real>>)
    requires |gains| == |frames|
    ensures |out| == |frames|
  {
    if |frames| == 0 then []
    else
      var n := |frames| - 1;
      MixFrames(frames[..n], gains[..n], s) + [MixRow(frames[n], gains[n], s)]
  }

  lemma {:induction false} MixRowEntries(frame: seq<real>, gain: real, s: Settings)
    ensures forall ch :: 0 <= ch < |frame| ==> MixRow(frame, gain, s)[ch] == MixSample(frame[ch], gain, s)
  {
    if |frame| > 0 {
      MixRowEntries(frame[..|frame| - 1], gain, s);
    }
  }

  /** Every channel of frame `i` is mixed with the gain of sample `i`. */
  lemma {:induction false} MixFramesEntries(frames: seq<seq<real>>, gains: seq<real>, s: Settings)
    requires |gains| == |frames|
    ensures forall i :: 0 <= i < |frames| ==> MixFrames(frames, gains, s)[i] == MixRow(frames[i], gains[i], s)
    ensures forall i :: 0 <= i < |frames| ==> |MixFrames(frames, gains, s)[i]| == |frames[i]|
    ensures forall i, ch :: 0 <= i < |frames| && 0 <= ch < |frames[i]| ==>
              MixFrames(frames, gains, s)[i][ch] == MixSample(frames[i][ch], gains[i], s)
  {
    if |frames| > 0 {
      var n := |frames| - 1;
      MixFramesEntries(frames[..n], gains[..n], s);
      forall i | 0 <= i < |frames|
        ensures MixFrames(frames, gains, s)[i] == MixRow(frames[i], gains[i], s)
      {
        if i < n {
          assert frames[..n][i] == frames[i] && gains[..n][i] == gains[i];
        }
      }
      forall i | 0 <= i < |frames|
        ensures forall ch :: 0 <= ch < |frames[i]| ==>
                  MixFrames(frames, gains, s)[i][ch] == MixSample(frames[i][ch], gains[i], s)
      {
        MixRowEntries(frames[i], gains[i], s);
      }
    }
  }

  /** An array whose every entry is the mix of the corresponding frame entry holds the
      mixed frames. */
  lemma MixedBufferFrames(a: array2<real>, frames: seq<seq<real>>, gains: seq<real>, s: Settings)
    requires |frames| == |gains| == a.Length1
    requires forall i :: 0 <= i < |frames| ==> |frames[i]| == a.Length0
    requires forall i, ch {:trigger a[ch, i]} :: 0 <= i < a.Length1 && 0 <= ch < a.Length0 ==>
               a[ch, i] == MixSample(frames[i][ch], gains[i], s)
    ensures Frames(a) == MixFrames(frames, gains, s)
  {
    MixFramesEntries(frames, gains, s);
    FramesEqual(a, MixFrames(frames, gains, s));
  }

  /** The target gain the curve asks for on one frame. */
  function TargetGain(m: Math, s: Settings, frame: seq<real>): real
  {
    ComputeGain(m, s, InputLevelDb(m, frame))
  }

  /** The cell after a block: detector, curve and cell step applied frame by frame. */
  function RunCell(m: Math, timing: Timing, s: Settings, c0: Cell, frames: seq<seq<real>>): Cell
  {
    if |frames| == 0 then c0
    else
      var prev := RunCell(m, timing, s, c0, frames[..|frames| - 1]);
      Step(m, timing, prev, TargetGain(m, s, frames[|frames| - 1]))
  }

  /** The gain the cell passes after each frame of the block. */
  function RunGains(m: Math, timing: Timing, s: Settings, c0: Cell, frames: seq<seq<real>>): (gains: seq<real>)
    ensures |gains| == |frames|
  {
    if |frames| == 0 then []
    else RunGains(m, timing, s, c0, frames[..|frames| - 1]) + [RunCell(m, timing, s, c0, frames).state]
  }

  /** The gain after each frame is the state of the cell run up to and including it. */
  lemma {:induction false} RunGainsAreStates(m: Math, timing: Timing, s: Settings, c0: Cell, frames: seq<seq<real>>)
    ensures forall i :: 0 <= i < |frames| ==>
              RunGains(m, timing, s, c0, frames)[i] == RunCell(m, timing, s, c0, frames[..i + 1]).state
  {
    if |frames| > 0 {
      var n := |frames| - 1;
      RunGainsAreStates(m, timing, s, c0, frames[..n]);
      forall i | 0 <= i < n
        ensures RunGains(m, timing, s, c0, frames)[i] == RunCell(m, timing, s, c0, frames[..i + 1]).state
      {
        assert frames[..n][..i + 1] == frames[..i + 1];
      }
      assert frames[..n + 1] == frames;
    }
  }

  /** The block's gain-reduction meter value before smoothing: the smallest gain in dB,
      scanned from 0. */
  function BlockGainReductionDb(m: Math, gains: seq<real>): (r: real)
    ensures r <= 0.0
  {
    if |gains| == 0 then 0.0
    else
      var prev := BlockGainReductionDb(m, gains[..|gains| - 1]);
      var grDb := GainToDecibels(m, gains[|gains| - 1]);
      if grDb < prev then grDb else prev
  }

  /** The gain-reduction meter value is the minimum of 0 and the gains in dB. */
  lemma {:induction false} BlockGainReductionIsMinimum(m: Math, gains: seq<real>)
    ensures forall i :: 0 <= i < |gains| ==> BlockGainReductionDb(m, gains) <= GainToDecibels(m, gains[i])
    ensures BlockGainReductionDb(m, gains) == 0.0 ||
            exists i :: 0 <= i < |gains| && BlockGainReductionDb(m, gains) == GainToDecibels(m, gains[i])
  {
    if |gains| > 0 {
      var prefix := gains[..|gains| - 1];
      BlockGainReductionIsMinimum(m, prefix);
      assert forall i :: 0 <= i < |prefix| ==> prefix[i] == gains[i];
      var r := BlockGainReductionDb(m, gains);
      if r != 0.0 && r != GainToDecibels(m, gains[|gains| - 1]) {
        var i :| 0 <= i < |prefix| && BlockGainReductionDb(m, prefix) == GainToDecibels(m, prefix[i]);
        assert r == GainToDecibels(m, gains[i]);
      }
    }
  }

  /** Stereo linking: every channel of a frame is multiplied by the same factor. */
  lemma {:induction false} MixIsLinkedScaling(frame: seq<real>, gain: real, s: Settings)
    ensures forall ch :: 0 <= ch < |frame| ==> MixRow(frame, gain, s)[ch] == frame[ch] * MixFactor(gain, s)
  {
    if |frame| > 0 {
      var n := |frame| - 1;
      MixIsLinkedScaling(frame[..n], gain, s);
      MixSampleIsScaling(frame[n], gain, s);
    }
  }

  /** The linked factor is 1 at zero mix and the cell gain times the makeup gain at full
      mix. */
  lemma MixFactorEnds(gain: real, s: Settings)
    ensures s.mix == 0.0 ==> MixFactor(gain, s) == 1.0
    ensures s.mix == 1.0 ==> MixFactor(gain, s) == gain * s.makeupGain
  {
  }

  lemma MixSampleIsScaling(dry: real, gain: real, s: Settings)
    ensures MixSample(dry, gain, s) == dry * MixFactor(gain, s)
  {
    calc {
      MixSample(dry, gain, s);
      dry * (1.0 - s.mix) + (dry * gain * s.makeupGain) * s.mix;
      dry * (1.0 - s.mix) + dry * (gain * s.makeupGain * s.mix);
      dry * ((1.0 - s.mix) + gain * s.makeupGain * s.mix);
    }
  }

  /** At zero mix the gain stage returns the block it was given, whatever the gains. */
  lemma DryMixIsIdentity(frames: seq<seq<real>>, gains: seq<real>, s: Settings)
    requires |gains| == |frames| && s.mix == 0.0
    ensures MixFrames(frames, gains, s) == frames
  {
    MixFramesEntries(frames, gains, s);
    forall i | 0 <= i < |frames|
      ensures MixFrames(frames, gains, s)[i] == frames[i]
    {
      forall ch | 0 <= ch < |frames[i]|
        ensures MixFrames(frames, gains, s)[i][ch] == frames[i][ch]
      {
        MixSampleIsScaling(frames[i][ch], gains[i], s);
      }
    }
  }

  /** With targets in [0, 1] on every frame, the cell stays in [0, 1] through a block and
      every gain it applies is in [0, 1]. */
  lemma {:induction false} RunKeepsUnitRange(m: Math, timing: Timing, s: Settings, c0: Cell, frames: seq<seq<real>>)
    requires ValidTiming(m, timing) && InUnitRange(c0)
    requires forall i :: 0 <= i < |frames| ==> 0.0 <= TargetGain(m, s, frames[i]) <= 1.0
    ensures InUnitRange(RunCell(m, timing, s, c0, frames))
    ensures forall i :: 0 <= i < |frames| ==> 0.0 <= RunGains(m, timing, s, c0, frames)[i] <= 1.0
  {
    if |frames| > 0 {
      var prefix := frames[..|frames| - 1];
      assert forall i :: 0 <= i < |prefix| ==> prefix[i] == frames[i];
      RunKeepsUnitRange(m, timing, s, c0, prefix);
      StepKeepsUnitRange(m, timing, RunCell(m, timing, s, c0, prefix), TargetGain(m, s, frames[|frames| - 1]));
    }
  }

  /** At zero peak reduction every target is unity, so a cell that starts at unity stays
      there and applies unity gain to every sample. */
  lemma {:induction false} BypassFromUnityKeepsUnity(m: Math, timing: Timing, s: Settings, c0: Cell, frames: seq<seq<real>>)
    requires s.peakReduction <= 0.0
    requires c0.state == 1.0 && c0.fastEnv == 1.0 && c0.slowEnv == 1.0
    ensures RunCell(m, timing, s, c0, frames).state == 1.0
    ensures RunCell(m, timing, s, c0, frames).fastEnv == 1.0
    ensures RunCell(m, timing, s, c0, frames).slowEnv == 1.0
    ensures forall i :: 0 <= i < |frames| ==> RunGains(m, timing, s, c0, frames)[i] == 1.0
  {
    if |frames| > 0 {
      var prefix := frames[..|frames| - 1];
      BypassFromUnityKeepsUnity(m, timing, s, c0, prefix);
      UnityIsFixedPoint(m, timing, RunCell(m, timing, s, c0, prefix));
    }
  }

  /** Bypass end to end: at zero peak reduction and unity makeup gain, a cell at unity
      passes the block through unchanged at any mix. */
  lemma BypassPassesBlockThrough(m: Math, timing: Timing, s: Settings, c0: Cell, frames: seq<seq<real>>)
    requires s.peakReduction <= 0.0 && s.makeupGain == 1.0
    requires c0.state == 1.0 && c0.fastEnv == 1.0 && c0.slowEnv == 1.0
    ensures MixFrames(frames, RunGains(m, timing, s, c0, frames), s) == frames
  {
    var gains := RunGains(m, timing, s, c0, frames);
    BypassFromUnityKeepsUnity(m, timing, s, c0, frames);
    MixFramesEntries(frames, gains, s);
    forall i | 0 <= i < |frames|
      ensures MixFrames(frames, gains, s)[i] == frames[i]
    {
      forall ch | 0 <= ch < |frames[i]|
        ensures MixFrames(frames, gains, s)[i][ch] == frames[i][ch]
      {
        MixSampleIsScaling(frames[i][ch], gains[i], s);
      }
    }
  }

  /** One more frame is one more cell step and one more gain. */
  lemma RunExtends(m: Math, timing: Timing, s: Settings, c0: Cell, frames: seq<seq<real>>, k: nat)
    requires k < |frames|
    ensures var next := Step(m, timing, RunCell(m, timing, s, c0, frames[..k]), TargetGain(m, s, frames[k]));
            && RunCell(m, timing, s, c0, frames[..k + 1]) == next
            && RunGains(m, timing, s, c0, frames[..k + 1]) == RunGains(m, timing, s, c0, frames[..k]) + [next.state]
  {
    assert frames[..k + 1][..k] == frames[..k];
  }

  /** The output peak over one more mixed frame. */
  lemma MixFramesExtends(frames: seq<seq<real>>, gains: seq<real>, gain: real, s: Settings, k: nat)
    requires k < |frames| && |gains| == k
    ensures PeakAbs(MixFrames(frames[..k + 1], gains + [gain], s))
         == Max(PeakAbs(MixFrames(frames[..k], gains, s)), RowPeak(MixRow(frames[k], gain, s)))
  {
    assert frames[..k + 1][..k] == frames[..k];
    assert (gains + [gain])[..k] == gains;
  }

  /** The engine's meter state: the two smoothed levels and the two values it publishes
      to the editor. */
  datatype Meters = Meters(smoothedGR: real, smoothedOutput: real, gainReductionDb: real, outputLevel: real)

  /** The meters after a block whose lowest gain is `blockGR` dB and whose largest output
      magnitude is `blockPeak`: both smoothed levels take one step with `coeff`, the
      published reduction is the smoothed one, the published output is its level in dB. */
  function MetersAfter(m: Math, coeff: real, before: Meters, blockGR: real, blockPeak: real): Meters
  {
    var gr := Smooth(coeff, before.smoothedGR, blockGR);
    var out := Smooth(coeff, before.smoothedOutput, blockPeak);
    Meters(gr, out, gr, GainToDecibels(m, out + 0.0001))
  }

  class OptoCompressor {
    var sampleRate: real

    var optoCellState: real
    var fastReleaseEnv: real
    var slowReleaseEnv: real

    var attackCoeff: real
    var fastReleaseCoeff: real
    var slowReleaseCoeff: real
    var adaptiveReleaseTime: real

    var peakReduction: real
    var makeupGain: real
    var limitMode: bool
    var britishMode: bool
    var mix: real

    var currentGainReductionDb: real
    var currentOutputLevel: real
    var meterSmoothingCoeff: real
    var smoothedGR: real
    var smoothedOutput: real

    function CurrentCell(): Cell
      reads this`optoCellState, this`fastReleaseEnv, this`slowReleaseEnv
      reads this`adaptiveReleaseTime, this`slowReleaseCoeff
    {
      Cell(optoCellState, fastReleaseEnv, slowReleaseEnv, adaptiveReleaseTime, slowReleaseCoeff)
    }

    function CurrentTiming(): Timing
      reads this`sampleRate, this`attackCoeff, this`fastReleaseCoeff
    {
      Timing(sampleRate, attackCoeff, fastReleaseCoeff)
    }

    function CurrentMeters(): Meters
      reads this`smoothedGR, this`smoothedOutput, this`currentGainReductionDb, this`currentOutputLevel
    {
      Meters(smoothedGR, smoothedOutput, currentGainReductionDb, currentOutputLevel)
    }

    function CurrentSettings(): Settings
      reads this`peakReduction, this`makeupGain, this`limitMode, this`britishMode, this`mix
    {
      Settings(peakReduction, makeupGain, limitMode, britishMode, mix)
    }

    /** The header's initial values: the cell and both envelopes at unity, coefficients 0,
        adaptive release time 1 (ms), default parameters (bypass, unity makeup, compress
        mode, full mix), meters at 0. */
    constructor ()
      ensures sampleRate == 44100.0
      ensures optoCellState == 1.0 && fastReleaseEnv == 1.0 && slowReleaseEnv == 1.0
      ensures attackCoeff == 0.0 && fastReleaseCoeff == 0.0 && slowReleaseCoeff == 0.0
      ensures adaptiveReleaseTime == 1.0
      ensures CurrentSettings() == Settings(0.0, 1.0, false, false, 1.0)
      ensures currentGainReductionDb == 0.0 && currentOutputLevel == 0.0
      ensures meterSmoothingCoeff == 0.0 && smoothedGR == 0.0 && smoothedOutput == 0.0
    {
      sampleRate := 44100.0;
      optoCellState, fastReleaseEnv, slowReleaseEnv := 1.0, 1.0, 1.0;
      attackCoeff, fastReleaseCoeff, slowReleaseCoeff := 0.0, 0.0, 0.0;
      adaptiveReleaseTime := 1.0;
      peakReduction, makeupGain, limitMode, britishMode, mix := 0.0, 1.0, false, false, 1.0;
      currentGainReductionDb, currentOutputLevel := 0.0, 0.0;
      meterSmoothingCoeff, smoothedGR, smoothedOutput := 0.0, 0.0, 0.0;
    }

    /** Stores the sample rate, derives the coefficients (the slow one from the release
        time in force BEFORE the reset that follows), derives the ~100 ms meter smoothing
        coefficient and resets. Parameters are left alone. */
    method Prepare(m: Math, newSampleRate: real)
      modifies this`sampleRate, this`attackCoeff, this`fastReleaseCoeff, this`slowReleaseCoeff
      modifies this`meterSmoothingCoeff
      modifies this`optoCellState, this`fastReleaseEnv, this`slowReleaseEnv
      modifies this`adaptiveReleaseTime, this`smoothedGR, this`smoothedOutput
      ensures sampleRate == newSampleRate
      ensures attackCoeff == OnePoleCoeff(m, BaseAttackMs, newSampleRate)
      ensures fastReleaseCoeff == OnePoleCoeff(m, FastReleaseMs, newSampleRate)
      ensures slowReleaseCoeff == OnePoleCoeff(m, old(adaptiveReleaseTime), newSampleRate)
      ensures meterSmoothingCoeff == OnePoleCoeff(m, 100.0, newSampleRate)
      ensures ExpDecays(m) && newSampleRate > 0.0 ==> ValidTiming(m, CurrentTiming())
      ensures optoCellState == 0.0 && fastReleaseEnv == 0.0 && slowReleaseEnv == 0.0
      ensures adaptiveReleaseTime == MinSlowReleaseMs
      ensures smoothedGR == 0.0 && smoothedOutput == 0.0
    {
      sampleRate := newSampleRate;
      UpdateCoefficients(m);
      meterSmoothingCoeff := OnePoleCoeff(m, 100.0, sampleRate);
      Reset();
    }

    /** Clears the cell, both envelopes and the meter smoothers to 0 (full attenuation, not
        unity) and the release time to its minimum. Parameters are left alone. */
    method Reset()
      modifies this`optoCellState, this`fastReleaseEnv, this`slowReleaseEnv
      modifies this`adaptiveReleaseTime, this`smoothedGR, this`smoothedOutput
      ensures optoCellState == 0.0 && fastReleaseEnv == 0.0 && slowReleaseEnv == 0.0
      ensures adaptiveReleaseTime == MinSlowReleaseMs
      ensures smoothedGR == 0.0 && smoothedOutput == 0.0
    {
      optoCellState := 0.0;
      fastReleaseEnv := 0.0;
      slowReleaseEnv := 0.0;
      adaptiveReleaseTime := MinSlowReleaseMs;
      smoothedGR := 0.0;
      smoothedOutput := 0.0;
    }

    method UpdateCoefficients(m: Math)
      modifies this`attackCoeff, this`fastReleaseCoeff, this`slowReleaseCoeff
      ensures attackCoeff == OnePoleCoeff(m, BaseAttackMs, sampleRate)
      ensures fastReleaseCoeff == OnePoleCoeff(m, FastReleaseMs, sampleRate)
      ensures slowReleaseCoeff == OnePoleCoeff(m, adaptiveReleaseTime, sampleRate)
    {
      var attackMs := BaseAttackMs;
      attackCoeff := OnePoleCoeff(m, attackMs, sampleRate);
      fastReleaseCoeff := OnePoleCoeff(m, FastReleaseMs, sampleRate);
      var slowMs := adaptiveReleaseTime;
      slowReleaseCoeff := OnePoleCoeff(m, slowMs, sampleRate);
    }

    method SetPeakReduction(value: real)
      modifies this`peakReduction
      ensures 0.0 <= peakReduction <= 100.0
      ensures peakReduction == Clamp(0.0, 100.0, value)
    {
      peakReduction := Clamp(0.0, 100.0, value);
    }

    /** The dB argument is clamped to [-10, 40] before conversion to a linear gain. */
    method SetGain(m: Math, db: real)
      modifies this`makeupGain
      ensures makeupGain == DecibelsToGain(m, Clamp(-10.0, 40.0, db))
    {
      makeupGain := DecibelsToGain(m, Clamp(-10.0, 40.0, db));
    }

    method SetLimitMode(limit: bool)
      modifies this`limitMode
      ensures limitMode == limit
    {
      limitMode := limit;
    }

    /** Declared by the engine; its definition is not among the sources, so it is taken
        to store the flag, which nothing reads. */
    method SetBritishMode(british: bool)
      modifies this`britishMode
      ensures britishMode == british
    {
      britishMode := british;
    }

    /** A percentage clamped to [0, 100] and stored as a fraction in [0, 1]. */
    method SetMix(percent: real)
      modifies this`mix
      ensures 0.0 <= mix <= 1.0
      ensures mix == Clamp(0.0, 100.0, percent) / 100.0
    {
      mix := Clamp(0.0, 100.0, percent) / 100.0;
    }

    method GetGainReductionDb() returns (db: real)
      ensures db == currentGainReductionDb
    {
      db := currentGainReductionDb;
    }

    method GetOutputLevel() returns (db: real)
      ensures db == currentOutputLevel
    {
      db := currentOutputLevel;
    }

    /** `processOpticalCell`: one step of the cell toward `targetGain`; returns the gain the
        cell now passes. */
    method ProcessOpticalCell(m: Math, targetGain: real) returns (gain: real)
      modifies this`optoCellState, this`fastReleaseEnv, this`slowReleaseEnv
      modifies this`adaptiveReleaseTime, this`slowReleaseCoeff
      ensures CurrentCell() == Step(m, CurrentTiming(), old(CurrentCell()), targetGain)
      ensures gain == optoCellState
      ensures CurrentTiming() == old(CurrentTiming()) && CurrentSettings() == old(CurrentSettings())
    {
      if targetGain < optoCellState {
        var attackSpeed := attackCoeff;
        if slowReleaseEnv > 0.5 {
          attackSpeed := OnePoleCoeff(m, BaseAttackMs * 0.5, sampleRate);
        }
        optoCellState := Smooth(attackSpeed, optoCellState, targetGain);
      } else {
        fastReleaseEnv := Smooth(fastReleaseCoeff, fastReleaseEnv, targetGain);
        adaptiveReleaseTime := AdaptiveReleaseTime(optoCellState);
        slowReleaseCoeff := OnePoleCoeff(m, adaptiveReleaseTime, sampleRate);
        slowReleaseEnv := Smooth(slowReleaseCoeff, slowReleaseEnv, targetGain);
        optoCellState := 0.4 * fastReleaseEnv + 0.6 * slowReleaseEnv;
      }
      gain := optoCellState;
    }

    /** Processes the buffer in place. An empty buffer (no channels or no samples) changes
        nothing. Otherwise every frame goes through the detector, the curve and the cell in
        time order, every channel of the frame is scaled by the same mixed gain, and the
        meters take one smoothing step toward the block's lowest gain in dB and its
        largest output magnitude. */
    method ProcessBlock(m: Math, buffer: array2<real>)
      modifies this`optoCellState, this`fastReleaseEnv, this`slowReleaseEnv
      modifies this`adaptiveReleaseTime, this`slowReleaseCoeff
      modifies this`smoothedGR, this`smoothedOutput
      modifies this`currentGainReductionDb, this`currentOutputLevel
      modifies buffer
      ensures CurrentTiming() == old(CurrentTiming()) && CurrentSettings() == old(CurrentSettings())
      ensures buffer.Length0 == 0 || buffer.Length1 == 0 ==> unchanged(this) && unchanged(buffer)
      ensures buffer.Length0 > 0 && buffer.Length1 > 0 ==>
        var gains := RunGains(m, CurrentTiming(), CurrentSettings(), old(CurrentCell()), old(Frames(buffer)));
        && Frames(buffer) == MixFrames(old(Frames(buffer)), gains, CurrentSettings())
        && CurrentCell() == RunCell(m, CurrentTiming(), CurrentSettings(), old(CurrentCell()), old(Frames(buffer)))
        && smoothedGR == Smooth(meterSmoothingCoeff, old(smoothedGR), BlockGainReductionDb(m, gains))
        && smoothedOutput == Smooth(meterSmoothingCoeff, old(smoothedOutput), PeakAbs(Frames(buffer)))
        && currentGainReductionDb == smoothedGR
        && currentOutputLevel == GainToDecibels(m, smoothedOutput + 0.0001)
    {
      var numChannels := buffer.Length0;
      var numSamples := buffer.Length1;

      if numChannels == 0 || numSamples == 0 {
        return;
      }

      var maxGR, maxOutput := ProcessFrames(m, buffer);
      UpdateMeters(m, maxGR, maxOutput, buffer);
    }

    /** The per-sample loop of `processBlock`: detector, curve and cell step for each frame
        in time order, the mixed gain applied to every channel of the frame, and the block's
        lowest gain in dB and largest output magnitude, both starting from 0. */
    method ProcessFrames(m: Math, buffer: array2<real>) returns (maxGR: real, maxOutput: real)
      requires buffer.Length0 > 0
      modifies this`optoCellState, this`fastReleaseEnv, this`slowReleaseEnv
      modifies this`adaptiveReleaseTime, this`slowReleaseCoeff
      modifies buffer
      ensures CurrentTiming() == old(CurrentTiming()) && CurrentSettings() == old(CurrentSettings())
      ensures var gains := RunGains(m, CurrentTiming(), CurrentSettings(), old(CurrentCell()), old(Frames(buffer)));
        && Frames(buffer) == MixFrames(old(Frames(buffer)), gains, CurrentSettings())
        && CurrentCell() == RunCell(m, CurrentTiming(), CurrentSettings(), old(CurrentCell()), old(Frames(buffer)))
        && maxGR == BlockGainReductionDb(m, gains)
        && maxOutput == PeakAbs(Frames(buffer))
    {
      ghost var frames := Frames(buffer);
      FramesEntries(buffer);
      ghost var gains;
      maxGR, maxOutput, gains := ProcessSamples(m, buffer, frames);
      MixedBufferFrames(buffer, frames, gains, CurrentSettings());
    }

    /** The loop over the samples of a buffer holding `frames`: returns the block's lowest
        gain in dB and largest output magnitude, and the gains the cell applied. */
    method ProcessSamples(m: Math, buffer: array2<real>, ghost frames: seq<seq<real>>)
      returns (maxGR: real, maxOutput: real, ghost gains: seq<real>)
      requires buffer.Length0 > 0 && |frames| == buffer.Length1
      requires forall s :: 0 <= s < |frames| ==> |frames[s]| == buffer.Length0
      requires forall s, ch {:trigger buffer[ch, s]} :: 0 <= s < buffer.Length1 && 0 <= ch < buffer.Length0 ==>
                 buffer[ch, s] == frames[s][ch]
      modifies this`optoCellState, this`fastReleaseEnv, this`slowReleaseEnv
      modifies this`adaptiveReleaseTime, this`slowReleaseCoeff
      modifies buffer
      ensures CurrentTiming() == old(CurrentTiming()) && CurrentSettings() == old(CurrentSettings())
      ensures gains == RunGains(m, CurrentTiming(), CurrentSettings(), old(CurrentCell()), frames)
      ensures CurrentCell() == RunCell(m, CurrentTiming(), CurrentSettings(), old(CurrentCell()), frames)
      ensures maxGR == BlockGainReductionDb(m, gains)
      ensures maxOutput == PeakAbs(MixFrames(frames, gains, CurrentSettings()))
      ensures forall s, ch {:trigger buffer[ch, s]} :: 0 <= s < buffer.Length1 && 0 <= ch < buffer.Length0 ==>
                buffer[ch, s] == MixSample(frames[s][ch], gains[s], CurrentSettings())
    {
      var numChannels := buffer.Length0;
      var numSamples := buffer.Length1;
      ghost var c0 := CurrentCell();
      ghost var timing := CurrentTiming();
      ghost var settings := CurrentSettings();
      gains := [];

      maxGR := 0.0;
      maxOutput := 0.0;

      for sample := 0 to numSamples
        invariant CurrentTiming() == timing && CurrentSettings() == settings
        invariant RunCell(m, timing, settings, c0, frames[..sample]) == CurrentCell()
        invariant RunGains(m, timing, settings, c0, frames[..sample]) == gains
        invariant maxGR == BlockGainReductionDb(m, gains)
        invariant maxOutput == PeakAbs(MixFrames(frames[..sample], gains, settings))
        invariant forall s, ch {:trigger buffer[ch, s]} :: 0 <= s < numSamples && 0 <= ch < numChannels ==>
                    buffer[ch, s] == if s < sample then MixSample(frames[s][ch], gains[s], settings) else frames[s][ch]
      {
        var gain;
        gain, maxGR, maxOutput := ProcessSample(m, buffer, sample, frames, c0, gains, maxGR, maxOutput);
        gains := gains + [gain];
      }

      assert frames[..numSamples] == frames;
    }

    /** One pass of the per-sample loop: the frame at `sample` goes through the detector,
        the curve and the cell, its channels are mixed in place with the new gain, and both
        running meter values take the frame into account. */
    method ProcessSample(m: Math, buffer: array2<real>, sample: nat, ghost frames: seq<seq<real>>,
                         ghost c0: Cell, ghost gains: seq<real>, maxGR: real, maxOutput: real)
      returns (gain: real, newMaxGR: real, newMaxOutput: real)
      requires buffer.Length0 > 0 && sample < buffer.Length1 == |frames| && |gains| == sample
      requires |frames[sample]| == buffer.Length0
      requires forall ch :: 0 <= ch < buffer.Length0 ==> buffer[ch, sample] == frames[sample][ch]
      requires RunCell(m, CurrentTiming(), CurrentSettings(), c0, frames[..sample]) == CurrentCell()
      requires RunGains(m, CurrentTiming(), CurrentSettings(), c0, frames[..sample]) == gains
      requires maxGR == BlockGainReductionDb(m, gains)
      requires maxOutput == PeakAbs(MixFrames(frames[..sample], gains, CurrentSettings()))
      modifies this`optoCellState, this`fastReleaseEnv, this`slowReleaseEnv
      modifies this`adaptiveReleaseTime, this`slowReleaseCoeff
      modifies buffer
      ensures CurrentTiming() == old(CurrentTiming()) && CurrentSettings() == old(CurrentSettings())
      ensures RunCell(m, CurrentTiming(), CurrentSettings(), c0, frames[..sample + 1]) == CurrentCell()
      ensures RunGains(m, CurrentTiming(), CurrentSettings(), c0, frames[..sample + 1]) == gains + [gain]
      ensures newMaxGR == BlockGainReductionDb(m, gains + [gain])
      ensures newMaxOutput == PeakAbs(MixFrames(frames[..sample + 1], gains + [gain], CurrentSettings()))
      ensures forall ch :: 0 <= ch < buffer.Length0 ==>
                buffer[ch, sample] == MixSample(frames[sample][ch], gain, CurrentSettings())
      ensures forall s, ch :: 0 <= s < buffer.Length1 && s != sample && 0 <= ch < buffer.Length0 ==>
                buffer[ch, s] == old(buffer[ch, s])
    {
      var targetGain := DetectTargetGain(m, buffer, sample, frames[sample]);
      gain := ProcessOpticalCell(m, targetGain);
      RunExtends(m, CurrentTiming(), CurrentSettings(), c0, frames, sample);
      MixFramesExtends(frames, gains, gain, CurrentSettings(), sample);

      newMaxGR := maxGR;
      var grDb := GainToDecibels(m, gain);
      if grDb < newMaxGR {
        newMaxGR := grDb;
      }
      assert (gains + [gain])[..sample] == gains;

      newMaxOutput := ApplyGainAt(buffer, sample, gain, maxOutput, frames[sample]);
    }

    /** The meter ballistics at the end of a block: one smoothing step of each meter toward
        the block's value, then the published readings. */
    method UpdateMeters(m: Math, maxGR: real, maxOutput: real, buffer: array2<real>)
      modifies this`smoothedGR, this`smoothedOutput
      modifies this`currentGainReductionDb, this`currentOutputLevel
      ensures smoothedGR == Smooth(meterSmoothingCoeff, old(smoothedGR), maxGR)
      ensures smoothedOutput == Smooth(meterSmoothingCoeff, old(smoothedOutput), maxOutput)
      ensures currentGainReductionDb == smoothedGR
      ensures currentOutputLevel == GainToDecibels(m, smoothedOutput + 0.0001)
      ensures CurrentCell() == old(CurrentCell()) && CurrentTiming() == old(CurrentTiming())
      ensures CurrentSettings() == old(CurrentSettings()) && Frames(buffer) == old(Frames(buffer))
    {
      smoothedGR := Smooth(meterSmoothingCoeff, smoothedGR, maxGR);
      smoothedOutput := Smooth(meterSmoothingCoeff, smoothedOutput, maxOutput);

      currentGainReductionDb := smoothedGR;
      currentOutputLevel := GainToDecibels(m, smoothedOutput + 0.0001);
    }

    /** The detector and the curve for one frame: the channel loop summing the squares,
        the RMS in dB, and the target gain `computeGain` gives for it. */
    method DetectTargetGain(m: Math, buffer: array2<real>, sample: nat, ghost frame: seq<real>)
      returns (targetGain: real)
      requires buffer.Length0 > 0 && sample < buffer.Length1
      requires |frame| == buffer.Length0
      requires forall ch :: 0 <= ch < buffer.Length0 ==> buffer[ch, sample] == frame[ch]
      ensures targetGain == TargetGain(m, CurrentSettings(), frame)
    {
      var inputLevel := 0.0;
      for ch := 0 to buffer.Length0
        invariant inputLevel == SumSquares(frame[..ch])
      {
        var s := buffer[ch, sample];
        assert frame[..ch + 1][..ch] == frame[..ch];
        inputLevel := inputLevel + s * s;
      }
      assert frame[..buffer.Length0] == frame;
      inputLevel := Sqrt(m, inputLevel / buffer.Length0 as real);

      var inputLevelDb := GainToDecibels(m, inputLevel + 0.0001);
      targetGain := ComputeGain(m, CurrentSettings(), inputLevelDb);
    }

    /** The gain stage's channel loop: mixes one frame in place with `gain` and carries the
        running output peak on. */
    method ApplyGainAt(buffer: array2<real>, sample: nat, gain: real, peakIn: real, ghost frame: seq<real>)
      returns (peakOut: real)
      requires sample < buffer.Length1 && peakIn >= 0.0
      requires |frame| == buffer.Length0
      requires forall ch :: 0 <= ch < buffer.Length0 ==> buffer[ch, sample] == frame[ch]
      modifies buffer
      ensures forall ch :: 0 <= ch < buffer.Length0 ==>
                buffer[ch, sample] == MixSample(frame[ch], gain, CurrentSettings())
      ensures forall s, ch :: 0 <= s < buffer.Length1 && s != sample && 0 <= ch < buffer.Length0 ==>
                buffer[ch, s] == old(buffer[ch, s])
      ensures peakOut == Max(peakIn, RowPeak(MixRow(frame, gain, CurrentSettings())))
      ensures CurrentCell() == old(CurrentCell()) && CurrentTiming() == old(CurrentTiming())
      ensures CurrentSettings() == old(CurrentSettings())
    {
      ghost var row := MixRow(frame, gain, CurrentSettings());
      MixRowEntries(frame, gain, CurrentSettings());
      peakOut := peakIn;
      for ch := 0 to buffer.Length0
        invariant peakOut == Max(peakIn, RowPeak(row[..ch]))
        invariant forall k :: 0 <= k < ch ==> buffer[k, sample] == row[k]
        invariant forall s, k :: 0 <= s < buffer.Length1 && 0 <= k < buffer.Length0 && (s != sample || ch <= k) ==>
                    buffer[k, s] == old(buffer[k, s])
      {
        var output := MixSample(buffer[ch, sample], gain, CurrentSettings());
        buffer[ch, sample] := output;
        assert row[..ch + 1][..ch] == row[..ch];
        var outAbs := Abs(output);
        if outAbs > peakOut {
          peakOut := outAbs;
        }
      }
      assert row[..buffer.Length0] == row;
    }
  }
}
