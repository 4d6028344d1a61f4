/** The plugin processor, `AuDemoProcessor`: the host-facing parameter layout, the bus
    layouts it accepts, the LIMIT/COMP button routing, and `processBlock`, which clears the
    unused output channels, records the input peak, pushes the parameters into the engine
    and runs it on the buffer. */
module Plugin {
  import opened Numerics
  import opened AudioBuffer
  import opened GainCurve
  import opened Compressor
  import OpticalCell

  /** The channel sets a host may propose for a bus: JUCE's mono and stereo sets, a
      disabled bus, and every other set reduced to its channel count. */
  datatype ChannelSet = Disabled | Mono | Stereo | OtherSet(channels: nat)

  function Size(c: ChannelSet): nat
  {
    match c
    case Disabled => 0
    case Mono => 1
    case Stereo => 2
    case OtherSet(n) => n
  }

  datatype BusesLayout = BusesLayout(mainInput: ChannelSet, mainOutput: ChannelSet)

  /** `isBusesLayoutSupported`: the output must be mono or stereo, and the input the same. */
  function IsBusesLayoutSupported(layout: BusesLayout): (ok: bool)
    ensures ok <==> layout.mainOutput in {Mono, Stereo} && layout.mainInput == layout.mainOutput
  {
    if layout.mainOutput != Mono && layout.mainOutput != Stereo then false
    else if layout.mainOutput != layout.mainInput then false
    else true
  }

  /** An accepted layout runs the engine on one or two channels, in as many as out. */
  lemma SupportedLayoutIsMonoOrStereo(layout: BusesLayout)
    requires IsBusesLayoutSupported(layout)
    ensures Size(layout.mainInput) == Size(layout.mainOutput)
    ensures 1 <= Size(layout.mainOutput) <= 2
  {
  }

  /** How a parameter presents itself to the host: a float with a range, a step and a
      default, or a toggle with a default. */
  datatype ParameterKind =
    | FloatParameter(minimum: real, maximum: real, step: real, defaultValue: real, unitLabel: string)
    | BoolParameter(defaultOn: bool)

  datatype Parameter = Parameter(id: string, name: string, kind: ParameterKind)

  /** `createParameterLayout`: the six automatable parameters, in declaration order. */
  function ParameterLayout(): (params: seq<Parameter>)
    ensures |params| == 6
  {
    [ Parameter("peakReduction", "Peak Reduction", FloatParameter(0.0, 100.0, 0.1, 0.0, "")),
      Parameter("gain", "Gain", FloatParameter(-10.0, 40.0, 0.1, 0.0, "dB")),
      Parameter("limitMode", "Limit Mode", BoolParameter(false)),
      Parameter("compMode", "Comp Mode", BoolParameter(true)),
      Parameter("mix", "Mix", FloatParameter(0.0, 100.0, 0.1, 100.0, "%")),
      Parameter("meterMode", "Meter Mode", BoolParameter(false)) ]
  }

  /** The parameter with identifier `id`, if the layout has one. */
  function Lookup(params: seq<Parameter>, id: string): (r: Option<Parameter>)
    ensures r.Some? ==> r.value in params && r.value.id == id
    ensures r.None? ==> forall p :: p in params ==> p.id != id
  {
    LookupFrom(params, id, 0)
  }

  /** The first parameter at index `k` or later with identifier `id`. */
  function LookupFrom(params: seq<Parameter>, id: string, k: nat): (r: Option<Parameter>)
    requires k <= |params|
    ensures r.Some? ==> r.value in params && r.value.id == id
    ensures r.None? ==> forall j :: k <= j < |params| ==> params[j].id != id
    decreases |params| - k
  {
    if k == |params| then None
    else if params[k].id == id then Some(params[k])
    else LookupFrom(params, id, k + 1)
  }

  datatype Option<T> = None | Some(value: T)

  /** Every identifier is declared once, and every float parameter's default lies in its
      range, with a positive step. */
  lemma ParameterLayoutIsWellFormed()
    ensures forall i, j :: 0 <= i < j < |ParameterLayout()| ==> ParameterLayout()[i].id != ParameterLayout()[j].id
    ensures forall p :: p in ParameterLayout() && p.kind.FloatParameter? ==>
              p.kind.minimum <= p.kind.defaultValue <= p.kind.maximum && p.kind.step > 0.0
  {
    var params := ParameterLayout();
    assert params[0].id[0] == 'p' && params[1].id[0] == 'g' && params[2].id[0] == 'l';
    assert params[3].id[0] == 'c' && params[4].id[0] == 'm' && params[5].id[0] == 'm';
    assert params[4].id[1] == 'i' && params[5].id[1] == 'e';
  }

  /** Lookup finds the first parameter carrying the identifier. */
  lemma {:induction false} LookupFindsFirst(params: seq<Parameter>, id: string, i: nat, k: nat)
    requires i <= k < |params| && params[k].id == id
    requires forall j :: i <= j < k ==> params[j].id != id
    ensures LookupFrom(params, id, i) == Some(params[k])
    decreases k - i
  {
    if i < k {
      LookupFindsFirst(params, id, i + 1, k);
    }
  }

  /** The host ranges are the ranges the engine's setters clamp to, so every value the host
      can send reaches the engine unclamped. */
  lemma ParameterRangesMatchEngine()
    ensures Lookup(ParameterLayout(), "peakReduction") == Some(Parameter("peakReduction", "Peak Reduction", FloatParameter(0.0, 100.0, 0.1, 0.0, "")))
    ensures Lookup(ParameterLayout(), "gain") == Some(Parameter("gain", "Gain", FloatParameter(-10.0, 40.0, 0.1, 0.0, "dB")))
    ensures Lookup(ParameterLayout(), "mix") == Some(Parameter("mix", "Mix", FloatParameter(0.0, 100.0, 0.1, 100.0, "%")))
    ensures forall v :: 0.0 <= v <= 100.0 ==> Clamp(0.0, 100.0, v) == v
    ensures forall v :: -10.0 <= v <= 40.0 ==> Clamp(-10.0, 40.0, v) == v
  {
    var params := ParameterLayout();
    LookupFindsFirst(params, "peakReduction", 0, 0);
    assert params[0].id[0] != "gain"[0];
    LookupFindsFirst(params, "gain", 0, 1);
    assert params[0].id[0] != "mix"[0] && params[1].id[0] != "mix"[0];
    assert params[2].id[0] != "mix"[0] && params[3].id[0] != "mix"[0];
    LookupFindsFirst(params, "mix", 0, 4);
  }

  /** The two buttons the audio thread reads: LIMIT starts out, COMP starts in. */
  lemma ButtonDefaults()
    ensures Lookup(ParameterLayout(), "limitMode") == Some(Parameter("limitMode", "Limit Mode", BoolParameter(false)))
    ensures Lookup(ParameterLayout(), "compMode") == Some(Parameter("compMode", "Comp Mode", BoolParameter(true)))
  {
    var params := ParameterLayout();
    assert params[0].id[0] != "limitMode"[0] && params[1].id[0] != "limitMode"[0];
    LookupFindsFirst(params, "limitMode", 0, 2);
    assert params[0].id[0] != "compMode"[0] && params[1].id[0] != "compMode"[0];
    assert params[2].id[0] != "compMode"[0];
    LookupFindsFirst(params, "compMode", 0, 3);
  }

  /** The layout's defaults give the engine exactly its own header defaults. */
  lemma DefaultsMatchEngine(m: Math)
    requires DecibelsToGainSound(m)
    ensures EngineSettings(m, DefaultParameterValues()) == Settings(0.0, 1.0, false, false, 1.0)
  {
    DefaultParameterValuesAre();
  }

  /** A stored parameter value switches a button on exactly when it is above 0.5. */
  function IsOn(value: real): bool
  {
    value > 0.5
  }

  /** The engine flags the two buttons select. */
  datatype ModeFlags = ModeFlags(british: bool, limit: bool)

  /** Both buttons in selects the british flag without the limit flag; LIMIT alone selects
      the limit flag; COMP alone or neither selects plain compression. */
  function RouteModes(limitOn: bool, compOn: bool): (flags: ModeFlags)
    ensures flags.british <==> limitOn && compOn
    ensures flags.limit <==> limitOn && !compOn
    ensures !(flags.british && flags.limit)
  {
    if limitOn && compOn then ModeFlags(true, false)
    else if limitOn then ModeFlags(false, true)
    else ModeFlags(false, false)
  }

  /** The 100:1 ratio is in force exactly when LIMIT is in and COMP is out; every other
      combination, both buttons included, compresses at 3:1. */
  lemma RoutingSelectsRatio(limitOn: bool, compOn: bool)
    ensures Ratio(RouteModes(limitOn, compOn).limit) == LimitRatio <==> limitOn && !compOn
    ensures !(limitOn && !compOn) ==> Ratio(RouteModes(limitOn, compOn).limit) == CompressRatio
  {
  }

  /** The raw values the host's parameter store holds for the five parameters the audio
      thread reads (buttons are stored as 0 or 1). */
  datatype ParameterValues = ParameterValues(
    peakReduction: real,
    gain: real,
    limitMode: real,
    compMode: real,
    mix: real)

  /** The value the parameter store holds for a parameter before the host sets it: a
      float's default, or 1/0 for a toggle that starts on/off. */
  function StoredDefault(p: Parameter): real
  {
    match p.kind
    case FloatParameter(_, _, _, d, _) => d
    case BoolParameter(on) => if on then 1.0 else 0.0
  }

  /** The stored default of the layout's parameter `id` (0 for an identifier the layout
      does not declare; every identifier read below is declared, as
      `ParameterRangesMatchEngine` and `ButtonDefaults` show). */
  function LayoutDefault(id: string): real
  {
    match Lookup(ParameterLayout(), id)
    case Some(p) => StoredDefault(p)
    case None => 0.0
  }

  /** The parameter store as `createParameterLayout` initialises it. */
  function DefaultParameterValues(): ParameterValues
  {
    ParameterValues(LayoutDefault("peakReduction"), LayoutDefault("gain"),
                    LayoutDefault("limitMode"), LayoutDefault("compMode"), LayoutDefault("mix"))
  }

  /** The store starts with no peak reduction, 0 dB of gain, LIMIT out, COMP in and a fully
      wet mix. */
  lemma DefaultParameterValuesAre()
    ensures DefaultParameterValues() == ParameterValues(0.0, 0.0, 0.0, 1.0, 100.0)
  {
    ParameterRangesMatchEngine();
    ButtonDefaults();
  }

  /** The engine settings `processBlock` pushes for a set of parameter values. */
  function EngineSettings(m: Math, p: ParameterValues): (s: Settings)
    ensures 0.0 <= s.peakReduction <= 100.0 && 0.0 <= s.mix <= 1.0
    ensures s.makeupGain == DecibelsToGain(m, Clamp(-10.0, 40.0, p.gain))
    ensures s.limitMode <==> IsOn(p.limitMode) && !IsOn(p.compMode)
    ensures s.britishMode <==> IsOn(p.limitMode) && IsOn(p.compMode)
  {
    var flags := RouteModes(IsOn(p.limitMode), IsOn(p.compMode));
    Settings(Clamp(0.0, 100.0, p.peakReduction), DecibelsToGain(m, Clamp(-10.0, 40.0, p.gain)),
             flags.limit, flags.british, Clamp(0.0, 100.0, p.mix) / 100.0)
  }

  /** Channels of a mixed block that were silent on entry are silent on exit, whatever the
      gains: the engine scales, it never adds. */
  lemma SilentChannelsStaySilent(a: array2<real>, frames: seq<seq<real>>, gains: seq<real>, s: Settings,
                                 lo: nat, hi: nat)
    requires |frames| == |gains| == a.Length1 && hi <= a.Length0
    requires forall i :: 0 <= i < |frames| ==> |frames[i]| == a.Length0
    requires forall i, ch :: 0 <= i < |frames| && lo <= ch < hi ==> frames[i][ch] == 0.0
    requires Frames(a) == MixFrames(frames, gains, s)
    ensures forall ch, i :: lo <= ch < hi && 0 <= i < a.Length1 ==> a[ch, i] == 0.0
  {
    FramesEntries(a);
    MixFramesEntries(frames, gains, s);
    forall ch, i | lo <= ch < hi && 0 <= i < a.Length1
      ensures a[ch, i] == 0.0
    {
      MixSampleIsScaling(frames[i][ch], gains[i], s);
    }
  }

  class AuDemoProcessor {
    const compressor: OptoCompressor
    /** The host's parameter store, as the audio thread reads it. */
    var params: ParameterValues
    var debugInputChannels: nat
    var debugInputLevel: real

    /** A fresh engine with its header defaults, and the layout's default parameter values. */
    constructor ()
      ensures fresh(compressor)
      ensures params == DefaultParameterValues()
      ensures compressor.sampleRate == 44100.0
      ensures compressor.CurrentSettings() == Settings(0.0, 1.0, false, false, 1.0)
      ensures compressor.CurrentCell() == OpticalCell.Cell(1.0, 1.0, 1.0, 1.0, 0.0)
      ensures compressor.attackCoeff == 0.0 && compressor.fastReleaseCoeff == 0.0
      ensures compressor.currentGainReductionDb == 0.0 && compressor.currentOutputLevel == 0.0
      ensures compressor.meterSmoothingCoeff == 0.0
      ensures compressor.smoothedGR == 0.0 && compressor.smoothedOutput == 0.0
      ensures debugInputChannels == 0 && debugInputLevel == 0.0
    {
      compressor := new OptoCompressor();
      params := DefaultParameterValues();
      debugInputChannels := 0;
      debugInputLevel := 0.0;
    }

    /** `prepareToPlay`: forwards the sample rate to the engine (the block size is unused).
        The engine's settings and published meters are untouched. */
    method PrepareToPlay(m: Math, sampleRate: real, samplesPerBlock: int)
      modifies compressor`sampleRate, compressor`attackCoeff, compressor`fastReleaseCoeff
      modifies compressor`slowReleaseCoeff, compressor`meterSmoothingCoeff
      modifies compressor`optoCellState, compressor`fastReleaseEnv, compressor`slowReleaseEnv
      modifies compressor`adaptiveReleaseTime, compressor`smoothedGR, compressor`smoothedOutput
      ensures compressor.sampleRate == sampleRate
      ensures compressor.attackCoeff == OnePoleCoeff(m, OpticalCell.BaseAttackMs, sampleRate)
      ensures compressor.fastReleaseCoeff == OnePoleCoeff(m, OpticalCell.FastReleaseMs, sampleRate)
      ensures compressor.slowReleaseCoeff == OnePoleCoeff(m, old(compressor.adaptiveReleaseTime), sampleRate)
      ensures compressor.meterSmoothingCoeff == OnePoleCoeff(m, 100.0, sampleRate)
      ensures compressor.optoCellState == 0.0 && compressor.fastReleaseEnv == 0.0
      ensures compressor.slowReleaseEnv == 0.0
      ensures compressor.adaptiveReleaseTime == OpticalCell.MinSlowReleaseMs
      ensures compressor.smoothedGR == 0.0 && compressor.smoothedOutput == 0.0
      ensures compressor.CurrentSettings() == old(compressor.CurrentSettings())
    {
      compressor.Prepare(m, sampleRate);
    }

    /** `releaseResources`: resets the engine; its timing, settings and published meters
        are untouched. */
    method ReleaseResources()
      modifies compressor`optoCellState, compressor`fastReleaseEnv, compressor`slowReleaseEnv
      modifies compressor`adaptiveReleaseTime, compressor`smoothedGR, compressor`smoothedOutput
      ensures compressor.optoCellState == 0.0 && compressor.fastReleaseEnv == 0.0
      ensures compressor.slowReleaseEnv == 0.0
      ensures compressor.adaptiveReleaseTime == OpticalCell.MinSlowReleaseMs
      ensures compressor.smoothedGR == 0.0 && compressor.smoothedOutput == 0.0
      ensures compressor.CurrentSettings() == old(compressor.CurrentSettings())
      ensures compressor.CurrentTiming() == old(compressor.CurrentTiming())
    {
      compressor.Reset();
    }

    /** `processBlock` on a buffer whose first `numInputs` channels carry the input and
        whose first `numOutputs` channels are the output. Channels in
        [numInputs, numOutputs) are cleared first (`cleared` is the buffer at that point)
        and are silent on exit. With no input channels nothing else happens. Otherwise
        the input peak is recorded, the parameters are pushed, and the engine processes
        the cleared buffer and, for a non-empty block, updates its meters. The engine's
        sample rate and coefficients are never touched. */
    method ProcessBlock(m: Math, buffer: array2<real>, numInputs: nat, numOutputs: nat)
      returns (ghost cleared: seq<seq<real>>)
      requires numInputs <= buffer.Length0 && numOutputs <= buffer.Length0
      modifies this`debugInputChannels, this`debugInputLevel, buffer
      modifies compressor`optoCellState, compressor`fastReleaseEnv, compressor`slowReleaseEnv
      modifies compressor`adaptiveReleaseTime, compressor`slowReleaseCoeff
      modifies compressor`smoothedGR, compressor`smoothedOutput
      modifies compressor`currentGainReductionDb, compressor`currentOutputLevel
      modifies compressor`peakReduction, compressor`makeupGain, compressor`limitMode
      modifies compressor`britishMode, compressor`mix
      ensures compressor.CurrentTiming() == old(compressor.CurrentTiming())
      ensures |cleared| == buffer.Length1
      ensures forall s :: 0 <= s < |cleared| ==> |cleared[s]| == buffer.Length0
      ensures forall s, ch :: 0 <= s < buffer.Length1 && 0 <= ch < buffer.Length0 ==>
                cleared[s][ch] == if numInputs <= ch < numOutputs then 0.0 else old(buffer[ch, s])
      ensures forall ch, s :: numInputs <= ch < numOutputs && 0 <= s < buffer.Length1 ==> buffer[ch, s] == 0.0
      ensures numInputs == 0 ==>
                Frames(buffer) == cleared && unchanged(compressor) &&
                debugInputChannels == old(debugInputChannels) && debugInputLevel == old(debugInputLevel)
      ensures numInputs > 0 ==>
                var settings := compressor.CurrentSettings();
                var gains := RunGains(m, compressor.CurrentTiming(), settings, old(compressor.CurrentCell()), cleared);
                && debugInputChannels == numInputs
                && debugInputLevel == old(PeakAbs(Channels(buffer, numInputs)))
                && settings == EngineSettings(m, params)
                && Frames(buffer) == MixFrames(cleared, gains, settings)
                && compressor.CurrentCell() == RunCell(m, compressor.CurrentTiming(), settings, old(compressor.CurrentCell()), cleared)
      ensures numInputs > 0 && buffer.Length1 > 0 ==>
                var gains := RunGains(m, compressor.CurrentTiming(), compressor.CurrentSettings(), old(compressor.CurrentCell()), cleared);
                compressor.CurrentMeters() == MetersAfter(m, compressor.meterSmoothingCoeff, old(compressor.CurrentMeters()),
                                                          BlockGainReductionDb(m, gains), PeakAbs(Frames(buffer)))
      ensures buffer.Length1 == 0 ==> compressor.CurrentMeters() == old(compressor.CurrentMeters())
    {
      cleared := ClearUnusedChannels(buffer, numInputs, numOutputs);

      if numInputs == 0 {
        return;
      }

      ProcessInputs(m, buffer, numInputs, numOutputs, cleared);
    }

    /** The part of `processBlock` after the early return: the input peak is recorded,
        the parameters are pushed and the engine processes the (already cleared) buffer,
        which keeps the cleared channels silent. */
    method ProcessInputs(m: Math, buffer: array2<real>, numInputs: nat, numOutputs: nat,
                         ghost cleared: seq<seq<real>>)
      requires 0 < numInputs <= buffer.Length0 && numOutputs <= buffer.Length0
      requires Frames(buffer) == cleared
      requires forall s :: 0 <= s < |cleared| ==> |cleared[s]| == buffer.Length0
      requires forall s, ch :: 0 <= s < |cleared| && numInputs <= ch < numOutputs ==> cleared[s][ch] == 0.0
      modifies this`debugInputChannels, this`debugInputLevel, buffer
      modifies compressor`optoCellState, compressor`fastReleaseEnv, compressor`slowReleaseEnv
      modifies compressor`adaptiveReleaseTime, compressor`slowReleaseCoeff
      modifies compressor`smoothedGR, compressor`smoothedOutput
      modifies compressor`currentGainReductionDb, compressor`currentOutputLevel
      modifies compressor`peakReduction, compressor`makeupGain, compressor`limitMode
      modifies compressor`britishMode, compressor`mix
      ensures compressor.CurrentTiming() == old(compressor.CurrentTiming())
      ensures debugInputChannels == numInputs
      ensures debugInputLevel == old(PeakAbs(Channels(buffer, numInputs)))
      ensures compressor.CurrentSettings() == EngineSettings(m, params)
      ensures forall ch, s :: numInputs <= ch < numOutputs && 0 <= s < buffer.Length1 ==> buffer[ch, s] == 0.0
      ensures var settings := compressor.CurrentSettings();
              var gains := RunGains(m, compressor.CurrentTiming(), settings, old(compressor.CurrentCell()), cleared);
              && Frames(buffer) == MixFrames(cleared, gains, settings)
              && compressor.CurrentCell() == RunCell(m, compressor.CurrentTiming(), settings, old(compressor.CurrentCell()), cleared)
      ensures buffer.Length1 > 0 ==>
                var gains := RunGains(m, compressor.CurrentTiming(), compressor.CurrentSettings(), old(compressor.CurrentCell()), cleared);
                compressor.CurrentMeters() == MetersAfter(m, compressor.meterSmoothingCoeff, old(compressor.CurrentMeters()),
                                                          BlockGainReductionDb(m, gains), PeakAbs(Frames(buffer)))
      ensures buffer.Length1 == 0 ==> compressor.CurrentMeters() == old(compressor.CurrentMeters())
    {
      TrackInputLevel(buffer, numInputs);
      assert Frames(buffer) == cleared;
      PushParameters(m);
      assert Frames(buffer) == cleared;
      RunEngine(m, buffer, numInputs, numOutputs, cleared);
    }

    /** The engine call that ends `processBlock`: the engine processes the cleared buffer
        with its current settings, which keeps the cleared channels silent. */
    method RunEngine(m: Math, buffer: array2<real>, numInputs: nat, numOutputs: nat,
                     ghost cleared: seq<seq<real>>)
      requires 0 < numInputs <= buffer.Length0 && numOutputs <= buffer.Length0
      requires Frames(buffer) == cleared
      requires forall s :: 0 <= s < |cleared| ==> |cleared[s]| == buffer.Length0
      requires forall s, ch :: 0 <= s < |cleared| && numInputs <= ch < numOutputs ==> cleared[s][ch] == 0.0
      modifies buffer
      modifies compressor`optoCellState, compressor`fastReleaseEnv, compressor`slowReleaseEnv
      modifies compressor`adaptiveReleaseTime, compressor`slowReleaseCoeff
      modifies compressor`smoothedGR, compressor`smoothedOutput
      modifies compressor`currentGainReductionDb, compressor`currentOutputLevel
      ensures compressor.CurrentTiming() == old(compressor.CurrentTiming())
      ensures compressor.CurrentSettings() == old(compressor.CurrentSettings())
      ensures forall ch, s :: numInputs <= ch < numOutputs && 0 <= s < buffer.Length1 ==> buffer[ch, s] == 0.0
      ensures var settings := compressor.CurrentSettings();
              var gains := RunGains(m, compressor.CurrentTiming(), settings, old(compressor.CurrentCell()), cleared);
              && Frames(buffer) == MixFrames(cleared, gains, settings)
              && compressor.CurrentCell() == RunCell(m, compressor.CurrentTiming(), settings, old(compressor.CurrentCell()), cleared)
      ensures buffer.Length1 > 0 ==>
                var gains := RunGains(m, compressor.CurrentTiming(), compressor.CurrentSettings(), old(compressor.CurrentCell()), cleared);
                compressor.CurrentMeters() == MetersAfter(m, compressor.meterSmoothingCoeff, old(compressor.CurrentMeters()),
                                                          BlockGainReductionDb(m, gains), PeakAbs(Frames(buffer)))
      ensures buffer.Length1 == 0 ==> compressor.CurrentMeters() == old(compressor.CurrentMeters())
    {
      ghost var cell := compressor.CurrentCell();
      ghost var settings := compressor.CurrentSettings();
      compressor.ProcessBlock(m, buffer);
      if buffer.Length1 > 0 {
        SilentChannelsStaySilent(buffer, cleared, RunGains(m, compressor.CurrentTiming(), settings, cell, cleared),
          settings, numInputs, numOutputs);
      } else {
        assert cleared == [];
      }
    }

    /** The clearing loop: every channel in [numInputs, numOutputs) is zeroed over the
        whole block; the input channels are left as they are. Returns the buffer's frames
        after clearing. */
    method ClearUnusedChannels(buffer: array2<real>, numInputs: nat, numOutputs: nat)
      returns (ghost cleared: seq<seq<real>>)
      requires numInputs <= buffer.Length0 && numOutputs <= buffer.Length0
      modifies buffer
      ensures cleared == Frames(buffer)
      ensures forall s :: 0 <= s < |cleared| ==> |cleared[s]| == buffer.Length0
      ensures forall s, ch :: 0 <= s < buffer.Length1 && 0 <= ch < buffer.Length0 ==>
                cleared[s][ch] == if numInputs <= ch < numOutputs then 0.0 else old(buffer[ch, s])
      ensures forall c, s {:trigger buffer[c, s]} :: 0 <= c < buffer.Length0 && 0 <= s < buffer.Length1 ==>
                buffer[c, s] == if numInputs <= c < numOutputs then 0.0 else old(buffer[c, s])
      ensures Channels(buffer, numInputs) == old(Channels(buffer, numInputs))
      ensures compressor.CurrentCell() == old(compressor.CurrentCell())
      ensures compressor.CurrentTiming() == old(compressor.CurrentTiming())
    {
      ghost var inputs := Channels(buffer, numInputs);
      ChannelsEntries(buffer, numInputs);
      var ch := numInputs;
      while ch < numOutputs
        invariant numInputs <= ch && (ch == numInputs || ch <= numOutputs)
        invariant forall c, s {:trigger buffer[c, s]} :: 0 <= c < buffer.Length0 && 0 <= s < buffer.Length1 ==>
                    buffer[c, s] == if numInputs <= c < ch then 0.0 else old(buffer[c, s])
      {
        for s := 0 to buffer.Length1
          invariant forall c, t {:trigger buffer[c, t]} :: 0 <= c < buffer.Length0 && 0 <= t < buffer.Length1 ==>
                      buffer[c, t] == if numInputs <= c < ch || (c == ch && t < s) then 0.0 else old(buffer[c, t])
        {
          buffer[ch, s] := 0.0;
        }
        ch := ch + 1;
      }
      cleared := Frames(buffer);
      FramesEntries(buffer);
      forall s, c | 0 <= s < buffer.Length1 && 0 <= c < buffer.Length0
        ensures cleared[s][c] == if numInputs <= c < numOutputs then 0.0 else old(buffer[c, s])
      {
        assert cleared[s][c] == buffer[c, s];
      }
      ChannelsEqual(buffer, numInputs, inputs);
    }

    /** The input-level tracking: the running maximum of |x| over the input channels,
        channel by channel from 0, stored with the channel count for the editor. */
    method TrackInputLevel(buffer: array2<real>, numInputs: nat)
      requires numInputs <= buffer.Length0
      modifies this`debugInputChannels, this`debugInputLevel
      ensures debugInputChannels == numInputs
      ensures debugInputLevel == old(PeakAbs(Channels(buffer, numInputs)))
      ensures Frames(buffer) == old(Frames(buffer))
      ensures compressor.CurrentCell() == old(compressor.CurrentCell())
      ensures compressor.CurrentTiming() == old(compressor.CurrentTiming())
    {
      var maxInput := 0.0;
      for ch := 0 to numInputs
        invariant maxInput == PeakAbs(Channels(buffer, ch))
      {
        for i := 0 to buffer.Length1
          invariant maxInput == Max(PeakAbs(Channels(buffer, ch)), RowPeak(Row(buffer, ch, i)))
        {
          var absVal := Abs(buffer[ch, i]);
          if absVal > maxInput {
            maxInput := absVal;
          }
          assert Row(buffer, ch, i + 1)[..i] == Row(buffer, ch, i);
        }
        assert Channels(buffer, ch + 1)[..ch] == Channels(buffer, ch);
      }
      debugInputChannels := numInputs;
      debugInputLevel := maxInput;
    }

    /** The parameter push: peak reduction and gain go straight to their setters, the two
        buttons are routed to the british and limit flags, and the mix follows. */
    method PushParameters(m: Math)
      modifies compressor`peakReduction, compressor`makeupGain, compressor`limitMode
      modifies compressor`britishMode, compressor`mix
      ensures compressor.CurrentSettings() == EngineSettings(m, params)
      ensures compressor.CurrentCell() == old(compressor.CurrentCell())
      ensures compressor.CurrentTiming() == old(compressor.CurrentTiming())
    {
      compressor.SetPeakReduction(params.peakReduction);
      compressor.SetGain(m, params.gain);

      var limitOn := IsOn(params.limitMode);
      var compOn := IsOn(params.compMode);
      if limitOn && compOn {
        compressor.SetBritishMode(true);
        compressor.SetLimitMode(false);
      } else if limitOn {
        compressor.SetBritishMode(false);
        compressor.SetLimitMode(true);
      } else {
        compressor.SetBritishMode(false);
        compressor.SetLimitMode(false);
      }

      compressor.SetMix(params.mix);
    }
  }
}
