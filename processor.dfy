/**
 * The block-level control logic of the plugin's audio processor: the
 * impedance knob mapping, the parameter ranges, the section update applied
 * to every filter instance, and processBlock, which drives the two live
 * filters (one per input channel) and the analysis ("dummy") instance.
 */
module Processor {
  import opened Mapping
  import opened SefModel
  import Sef

  // ---------------------------------------------------------------------------
  // Impedance mapping

  /** Inclusive at both ends. */
  predicate IsInBounds(value: real, low: real, high: real)
  {
    value >= low && value <= high
  }

  /** Linear rescaling of [smin, smax] onto [tmin, tmax] (JUCE's jmap). */
  function Jmap(value: real, smin: real, smax: real, tmin: real, tmax: real): (r: real)
    requires smin < smax
    ensures value == smin ==> r == tmin
    ensures value == smax ==> r == tmax
  {
    tmin + (tmax - tmin) * (value - smin) / (smax - smin)
  }

  /**
   * The Z knob in percent to ohms: 0 is the nominal 560 ohms, -100..0 is
   * spread linearly over 0.001..560 and 0..100 over 560..5000. Inputs outside
   * [-100, 100] reach an assertion and return nothing, so they are excluded.
   */
  function MapImpedanceVal(value: real): (r: real)
    requires IsInBounds(value, -100.0, 100.0)
    ensures value == 0.0 ==> r == 560.0
    ensures value == -100.0 ==> r == 0.001
    ensures value == 100.0 ==> r == 5000.0
  {
    if value == 0.0 then 560.0
    else if IsInBounds(value, -100.0, 0.0) then Jmap(value, -100.0, 0.0, 0.001, 560.0)
    else if IsInBounds(value, 0.0, 100.0) then Jmap(value, 0.0, 100.0, 560.0, 5000.0)
    else assert false; 0.0
  }

  /**
   * The map in slope form: 5.59999 ohms per percent below 0 and 44.4 ohms
   * per percent above, both lines passing through (0, 560).
   */
  lemma MapImpedanceSlopes(v: real)
    requires IsInBounds(v, -100.0, 100.0)
    ensures v <= 0.0 ==> MapImpedanceVal(v) == 560.0 + 5.59999 * v
    ensures v >= 0.0 ==> MapImpedanceVal(v) == 560.0 + 44.4 * v
  {
    if v == 0.0 {
    } else if v < 0.0 {
      assert MapImpedanceVal(v) == 0.001 + 559.999 * (v + 100.0) / 100.0;
    } else {
      assert MapImpedanceVal(v) == 560.0 + 4440.0 * v / 100.0;
    }
  }

  /** Over the knob's range the map is non-decreasing. */
  lemma MapImpedanceMonotone(a: real, b: real)
    requires IsInBounds(a, -100.0, 100.0) && IsInBounds(b, -100.0, 100.0) && a <= b
    ensures MapImpedanceVal(a) <= MapImpedanceVal(b)
  {
    MapImpedanceSlopes(a);
    MapImpedanceSlopes(b);
  }

  /** Every mapped impedance is a positive resistance between 0.001 and 5000 ohms. */
  lemma MapImpedanceRange(v: real)
    requires IsInBounds(v, -100.0, 100.0)
    ensures 0.001 <= MapImpedanceVal(v) <= 5000.0
  {
    MapImpedanceMonotone(-100.0, v);
    MapImpedanceMonotone(v, 100.0);
  }

  /** Both branches meet at 0: the map moves at most 44.4 ohms per percent around it. */
  lemma MapImpedanceContinuousAtZero(v: real)
    requires IsInBounds(v, -100.0, 100.0)
    ensures -44.4 * (if v < 0.0 then -v else v) <= MapImpedanceVal(v) - 560.0 <= 44.4 * (if v < 0.0 then -v else v)
  {
    MapImpedanceSlopes(v);
  }

  // ---------------------------------------------------------------------------
  // Parameters

  /** The values the parameter store holds for one block. */
  datatype Params = Params(
    highPassCutoff: real, lowPassCutoff: real,
    highPassKnobPos: int, lowPassKnobPos: int,
    zInput: real, zOutput: real,
    outputGainDb: real)

  /** The declared ranges: cutoffs 20..20000 Hz, knobs 1..11, Z -100..100 %, gain 0..20 dB. */
  predicate InRange(p: Params)
  {
    && IsInBounds(p.highPassCutoff, 20.0, 20000.0) && IsInBounds(p.lowPassCutoff, 20.0, 20000.0)
    && 1 <= p.highPassKnobPos <= 11 && 1 <= p.lowPassKnobPos <= 11
    && IsInBounds(p.zInput, -100.0, 100.0) && IsInBounds(p.zOutput, -100.0, 100.0)
    && IsInBounds(p.outputGainDb, 0.0, 20.0)
  }

  /** The declared defaults. */
  const DefaultParams: Params := Params(20.0, 20000.0, 1, 11, 0.0, 0.0, 6.0)

  /**
   * The defaults lie in their ranges and agree with a fresh filter: the
   * default cutoffs are its stored cutoffs, the default Z maps to its 560 ohms.
   */
  lemma DefaultsAgreeWithFilter(root2: real, twoPi: real)
    requires root2 > 0.0 && root2 * root2 == 2.0 && twoPi > 0.0
    ensures InRange(DefaultParams)
    ensures DefaultParams.highPassCutoff == Initial(root2, twoPi).highPassCutoff
    ensures DefaultParams.lowPassCutoff == Initial(root2, twoPi).lowPassCutoff
    ensures MapImpedanceVal(DefaultParams.zInput) == Initial(root2, twoPi).inputImpedance
    ensures MapImpedanceVal(DefaultParams.zOutput) == Initial(root2, twoPi).outputImpedance
  {
  }

  // ---------------------------------------------------------------------------
  // What one block does to each filter instance

  /**
   * The low-pass part of updateFilters for one instance: in continuous mode
   * the section follows the formula at the cutoff parameter, which is
   * stored; in discrete mode it takes the table pair of the knob position
   * and the stored cutoff is kept. Nothing outside the section changes.
   */
  function LowPassSection(s: Filter, continuous: bool, p: Params): (r: Filter)
    requires Wf(s) && InRange(p)
    ensures Wf(r)
    ensures r.lowPassCutoff == (if continuous then p.lowPassCutoff else s.lowPassCutoff)
    ensures LowPassPrimaryIs(r, if continuous then LowPassValues(p.lowPassCutoff * s.twoPi, s.k, s.root2) else LPVals[p.lowPassKnobPos - 1])
    ensures LowPassModIs(r, LowPassModTarget(s.lowPassMod, s.k, s.root2,
      if continuous then LowPassValues(p.lowPassCutoff * s.twoPi, s.k, s.root2) else LPVals[p.lowPassKnobPos - 1]))
    ensures OnlyLowPassValuesChange(s.(lowPassCutoff := r.lowPassCutoff), r)
  {
    if continuous then SetLowPassCutoff(s, p.lowPassCutoff) else SetLowPassKnobPos(s, p.lowPassKnobPos)
  }

  /** The high-pass part of updateFilters for one instance, as for the low-pass section. */
  function HighPassSection(s: Filter, continuous: bool, p: Params): (r: Filter)
    requires Wf(s) && InRange(p)
    ensures Wf(r)
    ensures r.highPassCutoff == (if continuous then p.highPassCutoff else s.highPassCutoff)
    ensures HighPassPrimaryIs(r, if continuous then HighPassValues(p.highPassCutoff * s.twoPi, s.k, s.root2) else HPVals[p.highPassKnobPos - 1])
    ensures HighPassModIs(r, HighPassModTarget(s.highPassMod, s.k, s.root2,
      if continuous then HighPassValues(p.highPassCutoff * s.twoPi, s.k, s.root2) else HPVals[p.highPassKnobPos - 1]))
    ensures OnlyHighPassValuesChange(s.(highPassCutoff := r.highPassCutoff), r)
  {
    if continuous then SetHighPassCutoff(s, p.highPassCutoff) else SetHighPassKnobPos(s, p.highPassKnobPos)
  }

  /**
   * updateFilters for one instance: the low-pass section, then the
   * high-pass section. Only the section values and (in continuous mode)
   * the stored cutoffs change; flags, impedances, k, rates and memory stay.
   */
  function UpdateSections(s: Filter, hpContinuous: bool, lpContinuous: bool, p: Params): (r: Filter)
    requires Wf(s) && InRange(p)
    ensures Wf(r)
    ensures r.highPassCutoff == (if hpContinuous then p.highPassCutoff else s.highPassCutoff)
    ensures r.lowPassCutoff == (if lpContinuous then p.lowPassCutoff else s.lowPassCutoff)
    ensures r == s.(net := r.net, highPassCutoff := r.highPassCutoff, lowPassCutoff := r.lowPassCutoff)
    ensures r.net.rin == s.net.rin && r.net.rt == s.net.rt
    ensures Memory(r.net) == Memory(s.net) && Rates(r.net) == Rates(s.net)
  {
    HighPassSection(LowPassSection(s, lpContinuous, p), hpContinuous, p)
  }

  /**
   * What updateFilters writes into one instance: each section ends with the
   * pair its mode selects (the formula at the parameter cutoff, or the table
   * entry of the knob position) and the mod pair its flag selects for it.
   */
  lemma UpdateSectionsValues(s: Filter, hpContinuous: bool, lpContinuous: bool, p: Params)
    requires Wf(s) && InRange(p)
    ensures var r, v := UpdateSections(s, hpContinuous, lpContinuous, p),
      if hpContinuous then HighPassValues(p.highPassCutoff * s.twoPi, s.k, s.root2) else HPVals[p.highPassKnobPos - 1];
      HighPassPrimaryIs(r, v) && HighPassModIs(r, HighPassModTarget(s.highPassMod, s.k, s.root2, v))
    ensures var r, v := UpdateSections(s, hpContinuous, lpContinuous, p),
      if lpContinuous then LowPassValues(p.lowPassCutoff * s.twoPi, s.k, s.root2) else LPVals[p.lowPassKnobPos - 1];
      LowPassPrimaryIs(r, v) && LowPassModIs(r, LowPassModTarget(s.lowPassMod, s.k, s.root2, v))
  {
    var a := LowPassSection(s, lpContinuous, p);
    assert a.k == s.k && a.root2 == s.root2 && a.twoPi == s.twoPi && a.highPassMod == s.highPassMod;
    var b := HighPassSection(a, hpContinuous, p);
    assert b.net.lp == a.net.lp;
  }

  /**
   * A live filter at the start of a block: reset when a knob position
   * changed since the last block, then updateFilters.
   */
  function LiveUpdate(s: Filter, knobsChanged: bool, hpContinuous: bool, lpContinuous: bool, p: Params): (r: Filter)
    requires Wf(s) && InRange(p)
    ensures Wf(r)
    ensures knobsChanged ==> MemoryCleared(r.net)
    ensures !knobsChanged ==> Memory(r.net) == Memory(s.net)
    ensures r.highPassMod == s.highPassMod && r.lowPassMod == s.lowPassMod && r.k == s.k
    ensures r.inputImpedance == s.inputImpedance && r.outputImpedance == s.outputImpedance
  {
    UpdateSections(if knobsChanged then Reset(s) else s, hpContinuous, lpContinuous, p)
  }

  /** The impedances set on a channel's filter just before its samples are processed. */
  function ChannelImpedances(s: Filter, p: Params): (r: Filter)
    requires Wf(s) && InRange(p)
    ensures Wf(r)
    ensures r.inputImpedance == MapImpedanceVal(p.zInput) && r.outputImpedance == MapImpedanceVal(p.zOutput)
    ensures r == s.(inputImpedance := r.inputImpedance, outputImpedance := r.outputImpedance,
                    net := s.net.(rin := r.inputImpedance, rt := r.outputImpedance))
  {
    SetOutputImpedance(SetInputImpedance(s, MapImpedanceVal(p.zInput)), MapImpedanceVal(p.zOutput))
  }

  /** The dummy instance's block: both continuous cutoffs, both impedances, then updateFilters. */
  function DummyUpdate(s: Filter, hpContinuous: bool, lpContinuous: bool, p: Params): (r: Filter)
    requires Wf(s) && InRange(p)
    ensures Wf(r)
    ensures r.highPassCutoff == p.highPassCutoff && r.lowPassCutoff == p.lowPassCutoff
    ensures r.inputImpedance == MapImpedanceVal(p.zInput) && r.outputImpedance == MapImpedanceVal(p.zOutput)
    ensures Memory(r.net) == Memory(s.net)
  {
    var t := SetHighPassCutoff(SetLowPassCutoff(s, p.lowPassCutoff), p.highPassCutoff);
    UpdateSections(ChannelImpedances(t, p), hpContinuous, lpContinuous, p)
  }

  /** Every sample multiplied by the output gain. */
  function Scaled(gain: real, ys: seq<real>): (r: seq<real>)
    ensures |r| == |ys|
    ensures forall i :: 0 <= i < |ys| ==> r[i] == gain * ys[i]
  {
    seq(|ys|, i requires 0 <= i < |ys| => gain * ys[i])
  }

  /** The two sections of two networks hold the same component values. */
  predicate SameHighPassValues(a: Network, b: Network)
  {
    && a.hp.cHP1.value == b.hp.cHP1.value && a.hp.cHP2.value == b.hp.cHP2.value && a.hp.lHP1.value == b.hp.lHP1.value
    && a.hp.cHPm1.value == b.hp.cHPm1.value && a.hp.cHPm2.value == b.hp.cHPm2.value && a.hp.lHPm.value == b.hp.lHPm.value
  }

  predicate SameLowPassValues(a: Network, b: Network)
  {
    && a.lp.cLP1.value == b.lp.cLP1.value && a.lp.lLP1.value == b.lp.lLP1.value && a.lp.lLP2.value == b.lp.lLP2.value
    && a.lp.cLPm1.value == b.lp.cLPm1.value && a.lp.lLPm1.value == b.lp.lLPm1.value && a.lp.lLPm2.value == b.lp.lLPm2.value
  }

  /** The high-pass section after a block depends only on the flag, k and the constants. */
  lemma HighPassSectionDetermined(a: Filter, b: Filter, continuous: bool, p: Params)
    requires Wf(a) && Wf(b) && InRange(p)
    requires a.highPassMod == b.highPassMod && a.k == b.k && a.root2 == b.root2 && a.twoPi == b.twoPi
    ensures SameHighPassValues(HighPassSection(a, continuous, p).net, HighPassSection(b, continuous, p).net)
  {
    var ra, rb := HighPassSection(a, continuous, p), HighPassSection(b, continuous, p);
    var v := if continuous then HighPassValues(p.highPassCutoff * a.twoPi, a.k, a.root2) else HPVals[p.highPassKnobPos - 1];
    assert HighPassPrimaryIs(ra, v) && HighPassPrimaryIs(rb, v);
    var m := HighPassModTarget(a.highPassMod, a.k, a.root2, v);
    assert HighPassModIs(ra, m) && HighPassModIs(rb, m);
  }

  /** The low-pass section after a block depends only on the flag, k and the constants. */
  lemma LowPassSectionDetermined(a: Filter, b: Filter, continuous: bool, p: Params)
    requires Wf(a) && Wf(b) && InRange(p)
    requires a.lowPassMod == b.lowPassMod && a.k == b.k && a.root2 == b.root2 && a.twoPi == b.twoPi
    ensures SameLowPassValues(LowPassSection(a, continuous, p).net, LowPassSection(b, continuous, p).net)
  {
    var ra, rb := LowPassSection(a, continuous, p), LowPassSection(b, continuous, p);
    var v := if continuous then LowPassValues(p.lowPassCutoff * a.twoPi, a.k, a.root2) else LPVals[p.lowPassKnobPos - 1];
    assert LowPassPrimaryIs(ra, v) && LowPassPrimaryIs(rb, v);
    var m := LowPassModTarget(a.lowPassMod, a.k, a.root2, v);
    assert LowPassModIs(ra, m) && LowPassModIs(rb, m);
  }

  /**
   * Both sections of a filter are a function of the settings that reach
   * them: two instances with the same flags, k and constants get the same
   * twelve component values from the same block, whatever they held before.
   */
  lemma SectionsDetermined(a: Filter, b: Filter, hpContinuous: bool, lpContinuous: bool, p: Params)
    requires Wf(a) && Wf(b) && InRange(p)
    requires a.highPassMod == b.highPassMod && a.lowPassMod == b.lowPassMod
    requires a.k == b.k && a.root2 == b.root2 && a.twoPi == b.twoPi
    ensures SameHighPassValues(UpdateSections(a, hpContinuous, lpContinuous, p).net, UpdateSections(b, hpContinuous, lpContinuous, p).net)
    ensures SameLowPassValues(UpdateSections(a, hpContinuous, lpContinuous, p).net, UpdateSections(b, hpContinuous, lpContinuous, p).net)
  {
    var la, lb := LowPassSection(a, lpContinuous, p), LowPassSection(b, lpContinuous, p);
    LowPassSectionDetermined(a, b, lpContinuous, p);
    HighPassSectionDetermined(la, lb, hpContinuous, p);
  }

  /**
   * The dummy mirrors the live filters: after the same block, the dummy and
   * a live channel filter with the same flags, k and constants hold the same
   * twelve component values and the same Rin and Rt, in discrete as well as
   * continuous mode.
   */
  lemma DummyMirrorsLiveFilter(live: Filter, dummy: Filter, knobsChanged: bool,
                               hpContinuous: bool, lpContinuous: bool, p: Params)
    requires Wf(live) && Wf(dummy) && InRange(p)
    requires live.highPassMod == dummy.highPassMod && live.lowPassMod == dummy.lowPassMod
    requires live.k == dummy.k && live.root2 == dummy.root2 && live.twoPi == dummy.twoPi
    ensures var x, y := ChannelImpedances(LiveUpdate(live, knobsChanged, hpContinuous, lpContinuous, p), p).net,
                        DummyUpdate(dummy, hpContinuous, lpContinuous, p).net;
      SameHighPassValues(x, y) && SameLowPassValues(x, y) && x.rin == y.rin && x.rt == y.rt
  {
    var a := if knobsChanged then Reset(live) else live;
    var t := SetHighPassCutoff(SetLowPassCutoff(dummy, p.lowPassCutoff), p.highPassCutoff);
    SectionsDetermined(a, ChannelImpedances(t, p), hpContinuous, lpContinuous, p);
  }

  /**
   * Processing a block never changes an instance's sample rate: after the
   * knob-change reset, the section update, the impedances and any number of
   * samples, the instance runs at the rate it was prepared at.
   */
  lemma BlockKeepsSampleRate(s: Filter, knobsChanged: bool, hpContinuous: bool, lpContinuous: bool,
                             p: Params, step: Solver, xs: seq<real>)
    requires Wf(s) && InRange(p)
    ensures var r := ChannelRun(LiveUpdate(s, knobsChanged, hpContinuous, lpContinuous, p), p, step, xs).0;
      r.fs == s.fs && AllPreparedAt(r.net, s.fs)
  {
    var live := LiveUpdate(s, knobsChanged, hpContinuous, lpContinuous, p);
    assert live.fs == s.fs;
    RunKeepsSettings(ChannelImpedances(live, p), step, xs);
  }

  /** One block as a live filter sees it: the knob-change flag, the editor's modes, the parameters and the channel's input. */
  datatype Block = Block(knobsChanged: bool, hpContinuous: bool, lpContinuous: bool, p: Params, xs: seq<real>)

  /** Every block's parameters lie in their ranges. */
  predicate BlocksInRange(bs: seq<Block>)
  {
    forall i :: 0 <= i < |bs| ==> InRange(bs[i].p)
  }

  /** A live filter after a sequence of blocks, each the knob reset, the section update, the impedances and the samples. */
  function RunBlocks(s: Filter, step: Solver, bs: seq<Block>): (r: Filter)
    requires Wf(s) && BlocksInRange(bs)
    ensures Wf(r)
    decreases |bs|
  {
    if bs == [] then s
    else
      var b := bs[0];
      var live := ChannelImpedances(LiveUpdate(s, b.knobsChanged, b.hpContinuous, b.lpContinuous, b.p), b.p);
      RunKeepsSettings(live, step, b.xs);
      RunBlocks(Run(live, step, b.xs).0, step, bs[1..])
  }

  /** Any number of blocks keeps the rate an instance was prepared at. */
  lemma {:induction false} BlocksKeepSampleRate(s: Filter, step: Solver, bs: seq<Block>)
    requires Wf(s) && BlocksInRange(bs)
    ensures var r := RunBlocks(s, step, bs); r.fs == s.fs && (AllPreparedAt(s.net, s.fs) ==> AllPreparedAt(r.net, s.fs))
    decreases |bs|
  {
    if bs != [] {
      var b := bs[0];
      BlockKeepsSampleRate(s, b.knobsChanged, b.hpContinuous, b.lpContinuous, b.p, step, b.xs);
      var live := ChannelImpedances(LiveUpdate(s, b.knobsChanged, b.hpContinuous, b.lpContinuous, b.p), b.p);
      RunKeepsSettings(live, step, b.xs);
      BlocksKeepSampleRate(Run(live, step, b.xs).0, step, bs[1..]);
    }
  }

  /**
   * prepareToPlay as written prepares nothing, so an instance processes every
   * block at the 48 kHz of its initialisers, whatever the host's rate.
   */
  lemma BlocksRunAtConstructionRate(root2: real, twoPi: real, step: Solver, bs: seq<Block>)
    requires root2 > 0.0 && root2 * root2 == 2.0 && twoPi > 0.0 && BlocksInRange(bs)
    ensures var r := RunBlocks(Initial(root2, twoPi), step, bs); r.fs == 48000.0 && AllPreparedAt(r.net, 48000.0)
  {
    BlocksKeepSampleRate(Initial(root2, twoPi), step, bs);
  }

  /** Once prepared at the host's rate, an instance processes every block at that rate. */
  lemma PreparedBlocksRunAtHostRate(s: Filter, hostRate: real, step: Solver, bs: seq<Block>)
    requires Wf(s) && BlocksInRange(bs)
    ensures var r := RunBlocks(Prepare(s, hostRate), step, bs); r.fs == hostRate && AllPreparedAt(r.net, hostRate)
  {
    BlocksKeepSampleRate(Prepare(s, hostRate), step, bs);
  }

  // ---------------------------------------------------------------------------
  // The processor object

  /** One channel of an audio buffer (channels by samples). */
  ghost function Row(a: array2<real>, ch: nat): (r: seq<real>)
    requires ch < a.Length0
    reads a
    ensures |r| == a.Length1
    ensures forall j :: 0 <= j < a.Length1 ==> r[j] == a[ch, j]
  {
    seq(a.Length1, j requires 0 <= j < a.Length1 reads a => a[ch, j])
  }

  /** A live filter's share of one block once its impedances are set: the final state and the outputs. */
  function ChannelRun(s: Filter, p: Params, step: Solver, xs: seq<real>): (r: (Filter, seq<real>))
    requires Wf(s) && InRange(p)
    ensures |r.1| == |xs|
  {
    Run(ChannelImpedances(s, p), step, xs)
  }

  /**
   * The per-sample loop of one channel: each sample, in order, is replaced
   * in place by gain times the filter's output for it.
   */
  method ProcessChannel(filter: Sef.RcaMk2Sef, buffer: array2<real>, ch: nat, gain: real, step: Solver)
    requires filter.Valid() && ch < buffer.Length0
    modifies filter, buffer
    ensures filter.Valid()
    ensures filter.State() == Run(old(filter.State()), step, old(Row(buffer, ch))).0
    ensures Row(buffer, ch) == Scaled(gain, Run(old(filter.State()), step, old(Row(buffer, ch))).1)
    ensures forall c, j :: 0 <= c < buffer.Length0 && c != ch && 0 <= j < buffer.Length1 ==> buffer[c, j] == old(buffer[c, j])
  {
    ghost var xs := Row(buffer, ch);
    ghost var s0 := filter.State();
    ghost var ys: seq<real> := [];
    var sample := 0;
    while sample < buffer.Length1
      invariant 0 <= sample <= buffer.Length1
      invariant filter.Valid()
      invariant (filter.State(), ys) == Run(s0, step, xs[..sample])
      invariant forall j :: 0 <= j < sample ==> buffer[ch, j] == gain * ys[j]
      invariant forall j :: sample <= j < buffer.Length1 ==> buffer[ch, j] == xs[j]
      invariant forall c, j :: 0 <= c < buffer.Length0 && c != ch && 0 <= j < buffer.Length1 ==> buffer[c, j] == old(buffer[c, j])
    {
      RunPrefix(s0, step, xs, sample);
      var inSample := buffer[ch, sample];
      var outSample := filter.ProcessSample(inSample, step);
      buffer[ch, sample] := gain * outSample;
      ys := ys + [outSample];
      sample := sample + 1;
    }
    assert xs[..sample] == xs;
    assert Row(buffer, ch) == Scaled(gain, ys);
  }

  /** buffer.clear for the channels from..to-1: every sample of them becomes 0. */
  method ClearChannels(buffer: array2<real>, from: nat, to: nat)
    requires to <= buffer.Length0
    modifies buffer
    ensures forall c, j :: from <= c < to && 0 <= j < buffer.Length1 ==> buffer[c, j] == 0.0
    ensures forall c, j :: 0 <= c < buffer.Length0 && !(from <= c < to) && 0 <= j < buffer.Length1 ==> buffer[c, j] == old(buffer[c, j])
  {
    // The loop runs only when the bus has more output than input channels.
    if from < to {
      var i := from;
      while i < to
        invariant from <= i <= to
        invariant forall c, j :: from <= c < i && 0 <= j < buffer.Length1 ==> buffer[c, j] == 0.0
        invariant forall c, j :: 0 <= c < buffer.Length0 && !(from <= c < i) && 0 <= j < buffer.Length1 ==> buffer[c, j] == old(buffer[c, j])
      {
        forall j | 0 <= j < buffer.Length1 {
          buffer[i, j] := 0.0;
        }
        i := i + 1;
      }
    }
  }

  class AudioProcessor {
    /** The live filters, one per channel of a mono or stereo bus. */
    const filters: seq<Sef.RcaMk2Sef>
    /** The analysis instance the response curve is computed from. */
    const dummy: Sef.RcaMk2Sef
    var isHighPassContinuous: bool
    var isLowPassContinuous: bool
    var prevHighPassKnobPos: int
    var prevLowPassKnobPos: int

    /** Three distinct, well-formed filter instances. */
    predicate Valid()
      reads this, filters, dummy
    {
      && |filters| == 2 && filters[0] != filters[1] && dummy != filters[0] && dummy != filters[1]
      && filters[0].Valid() && filters[1].Valid() && dummy.Valid()
    }

    /** Every instance starts from the default member values; both sections start continuous. */
    constructor (root2: real, twoPi: real, impulseLevel: real, prevHighPassKnobPos: int, prevLowPassKnobPos: int)
      requires root2 > 0.0 && root2 * root2 == 2.0 && twoPi > 0.0
      ensures Valid()
      ensures filters[0].State() == Initial(root2, twoPi) && filters[1].State() == Initial(root2, twoPi)
      ensures dummy.State() == Initial(root2, twoPi)
      ensures fresh(filters[0]) && fresh(filters[1]) && fresh(dummy)
      ensures isHighPassContinuous && isLowPassContinuous
      ensures this.prevHighPassKnobPos == prevHighPassKnobPos && this.prevLowPassKnobPos == prevLowPassKnobPos
    {
      var left := new Sef.RcaMk2Sef(root2, twoPi, impulseLevel);
      var right := new Sef.RcaMk2Sef(root2, twoPi, impulseLevel);
      var analysis := new Sef.RcaMk2Sef(root2, twoPi, impulseLevel);
      filters := [left, right];
      dummy := analysis;
      isHighPassContinuous := true;
      isLowPassContinuous := true;
      this.prevHighPassKnobPos := prevHighPassKnobPos;
      this.prevLowPassKnobPos := prevLowPassKnobPos;
    }

    /** The setLowPassParameters lambda of updateFilters. */
    method SetLowPassParameters(filter: Sef.RcaMk2Sef, p: Params)
      requires filter.Valid() && InRange(p)
      modifies filter
      ensures filter.Valid()
      ensures filter.State() == LowPassSection(old(filter.State()), isLowPassContinuous, p)
    {
      if isLowPassContinuous {
        filter.SetLowPassCutoff(p.lowPassCutoff);
      } else {
        filter.SetLowPassKnobPos(p.lowPassKnobPos);
      }
    }

    /** The setHighPassParameters lambda of updateFilters. */
    method SetHighPassParameters(filter: Sef.RcaMk2Sef, p: Params)
      requires filter.Valid() && InRange(p)
      modifies filter
      ensures filter.Valid()
      ensures filter.State() == HighPassSection(old(filter.State()), isHighPassContinuous, p)
    {
      if isHighPassContinuous {
        filter.SetHighPassCutoff(p.highPassCutoff);
      } else {
        filter.SetHighPassKnobPos(p.highPassKnobPos);
      }
    }

    /** Both sections of one instance, low-pass first. */
    method UpdateInstance(filter: Sef.RcaMk2Sef, p: Params)
      requires filter.Valid() && InRange(p)
      modifies filter
      ensures filter.Valid()
      ensures filter.State() == UpdateSections(old(filter.State()), isHighPassContinuous, isLowPassContinuous, p)
    {
      SetLowPassParameters(filter, p);
      SetHighPassParameters(filter, p);
    }

    /** The loop of updateFilters over the live filters. */
    method UpdateLiveFilters(p: Params)
      requires Valid() && InRange(p)
      modifies filters[0], filters[1]
      ensures Valid()
      ensures filters[0].State() == UpdateSections(old(filters[0].State()), isHighPassContinuous, isLowPassContinuous, p)
      ensures filters[1].State() == UpdateSections(old(filters[1].State()), isHighPassContinuous, isLowPassContinuous, p)
    {
      var i := 0;
      while i < |filters|
        invariant 0 <= i <= |filters|
        invariant Valid()
        invariant i == 0 ==> filters[0].State() == old(filters[0].State())
        invariant i > 0 ==> filters[0].State() == UpdateSections(old(filters[0].State()), isHighPassContinuous, isLowPassContinuous, p)
        invariant i <= 1 ==> filters[1].State() == old(filters[1].State())
        invariant i > 1 ==> filters[1].State() == UpdateSections(old(filters[1].State()), isHighPassContinuous, isLowPassContinuous, p)
      {
        UpdateInstance(filters[i], p);
        i := i + 1;
      }
    }

    /** updateFilters: the same section update for every live filter, then for the dummy. */
    method UpdateFilters(p: Params)
      requires Valid() && InRange(p)
      modifies filters[0], filters[1], dummy
      ensures Valid()
      ensures filters[0].State() == UpdateSections(old(filters[0].State()), isHighPassContinuous, isLowPassContinuous, p)
      ensures filters[1].State() == UpdateSections(old(filters[1].State()), isHighPassContinuous, isLowPassContinuous, p)
      ensures dummy.State() == UpdateSections(old(dummy.State()), isHighPassContinuous, isLowPassContinuous, p)
    {
      UpdateLiveFilters(p);
      UpdateInstance(dummy, p);
    }

    /** The reset loop of processBlock: every live filter, not the dummy. */
    method ResetLiveFilters()
      requires Valid()
      modifies filters[0], filters[1]
      ensures Valid()
      ensures filters[0].State() == Reset(old(filters[0].State()))
      ensures filters[1].State() == Reset(old(filters[1].State()))
    {
      var i := 0;
      while i < |filters|
        invariant 0 <= i <= |filters|
        invariant Valid()
        invariant i == 0 ==> filters[0].State() == old(filters[0].State())
        invariant i > 0 ==> filters[0].State() == Reset(old(filters[0].State()))
        invariant i <= 1 ==> filters[1].State() == old(filters[1].State())
        invariant i > 1 ==> filters[1].State() == Reset(old(filters[1].State()))
      {
        filters[i].Reset();
        i := i + 1;
      }
    }

    /**
     * prepareToPlay as evidently intended: every instance, the dummy
     * included, prepared at the host's sample rate.
     */
    method PrepareToPlay(sampleRate: real)
      requires Valid()
      modifies filters[0], filters[1], dummy
      ensures Valid()
      ensures filters[0].State() == Prepare(old(filters[0].State()), sampleRate)
      ensures filters[1].State() == Prepare(old(filters[1].State()), sampleRate)
      ensures dummy.State() == Prepare(old(dummy.State()), sampleRate)
    {
      var i := 0;
      while i < |filters|
        invariant 0 <= i <= |filters|
        invariant Valid()
        invariant dummy.State() == old(dummy.State())
        invariant i == 0 ==> filters[0].State() == old(filters[0].State())
        invariant i > 0 ==> filters[0].State() == Prepare(old(filters[0].State()), sampleRate)
        invariant i <= 1 ==> filters[1].State() == old(filters[1].State())
        invariant i > 1 ==> filters[1].State() == Prepare(old(filters[1].State()), sampleRate)
      {
        filters[i].Prepare(sampleRate);
        i := i + 1;
      }
      dummy.Prepare(sampleRate);
    }

    /** Whether a knob position differs from the one remembered from the last block. */
    predicate KnobsChanged(p: Params)
      reads this
    {
      p.highPassKnobPos != prevHighPassKnobPos || p.lowPassKnobPos != prevLowPassKnobPos
    }

    /**
     * The knob-change check of processBlock: when either position differs
     * from the remembered one, every live filter is reset and both
     * positions are remembered; otherwise nothing happens.
     */
    method ResetOnKnobChange(p: Params)
      requires Valid()
      modifies this, filters[0], filters[1]
      ensures Valid()
      ensures prevHighPassKnobPos == p.highPassKnobPos && prevLowPassKnobPos == p.lowPassKnobPos
      ensures isHighPassContinuous == old(isHighPassContinuous) && isLowPassContinuous == old(isLowPassContinuous)
      ensures old(KnobsChanged(p)) ==>
        filters[0].State() == Reset(old(filters[0].State())) && filters[1].State() == Reset(old(filters[1].State()))
      ensures !old(KnobsChanged(p)) ==>
        filters[0].State() == old(filters[0].State()) && filters[1].State() == old(filters[1].State())
    {
      if KnobsChanged(p) {
        ResetLiveFilters();
        prevHighPassKnobPos := p.highPassKnobPos;
        prevLowPassKnobPos := p.lowPassKnobPos;
      }
    }

    /** processBlock's four calls on the dummy before updateFilters: both cutoffs, both impedances. */
    method SetDummyTargets(p: Params)
      requires Valid() && InRange(p)
      modifies dummy
      ensures Valid()
      ensures dummy.State() == ChannelImpedances(SetHighPassCutoff(SetLowPassCutoff(old(dummy.State()), p.lowPassCutoff), p.highPassCutoff), p)
    {
      var mappedZIn := MapImpedanceVal(p.zInput);
      var mappedZOut := MapImpedanceVal(p.zOutput);
      dummy.SetLowPassCutoff(p.lowPassCutoff);
      dummy.SetHighPassCutoff(p.highPassCutoff);
      dummy.SetInputImpedance(mappedZIn);
      dummy.SetOutputImpedance(mappedZOut);
    }

    /** One pass of processBlock's channel loop: channel ch's impedances, then its samples through filters[ch]. */
    method ProcessOneChannel(buffer: array2<real>, ch: nat, p: Params, gain: real, step: Solver)
      requires Valid() && InRange(p) && ch < |filters| && ch < buffer.Length0
      modifies filters[ch], buffer
      ensures Valid()
      ensures filters[ch].State() == ChannelRun(old(filters[ch].State()), p, step, old(Row(buffer, ch))).0
      ensures Row(buffer, ch) == Scaled(gain, ChannelRun(old(filters[ch].State()), p, step, old(Row(buffer, ch))).1)
      ensures forall c, j :: 0 <= c < buffer.Length0 && c != ch && 0 <= j < buffer.Length1 ==> buffer[c, j] == old(buffer[c, j])
    {
      var mappedZIn := MapImpedanceVal(p.zInput);
      var mappedZOut := MapImpedanceVal(p.zOutput);
      var filter := filters[ch];
      filter.SetInputImpedance(mappedZIn);
      filter.SetOutputImpedance(mappedZOut);
      ProcessChannel(filter, buffer, ch, gain, step);
    }

    /** The channel loop of processBlock, over the input channels. */
    method ProcessChannels(buffer: array2<real>, numIn: nat, p: Params, gain: real, step: Solver)
      requires Valid() && InRange(p) && numIn <= |filters| && numIn <= buffer.Length0
      modifies filters[0], filters[1], buffer
      ensures Valid()
      ensures filters[0].State() ==
        if numIn > 0 then ChannelRun(old(filters[0].State()), p, step, old(Row(buffer, 0))).0 else old(filters[0].State())
      ensures filters[1].State() ==
        if numIn > 1 then ChannelRun(old(filters[1].State()), p, step, old(Row(buffer, 1))).0 else old(filters[1].State())
      ensures numIn > 0 ==> Row(buffer, 0) == Scaled(gain, ChannelRun(old(filters[0].State()), p, step, old(Row(buffer, 0))).1)
      ensures numIn > 1 ==> Row(buffer, 1) == Scaled(gain, ChannelRun(old(filters[1].State()), p, step, old(Row(buffer, 1))).1)
      ensures forall c, j :: numIn <= c < buffer.Length0 && 0 <= j < buffer.Length1 ==> buffer[c, j] == old(buffer[c, j])
    {
      ghost var s0, s1 := filters[0].State(), filters[1].State();
      ghost var out0 := if numIn > 0 then ChannelRun(s0, p, step, Row(buffer, 0)) else (s0, []);
      ghost var out1 := if numIn > 1 then ChannelRun(s1, p, step, Row(buffer, 1)) else (s1, []);
      var channel := 0;
      while channel < numIn
        invariant 0 <= channel <= numIn
        invariant Valid()
        invariant channel == 0 ==> filters[0].State() == s0
        invariant channel > 0 ==> filters[0].State() == out0.0
        invariant channel > 0 ==> Row(buffer, 0) == Scaled(gain, out0.1)
        invariant channel <= 1 ==> filters[1].State() == s1
        invariant channel > 1 ==> filters[1].State() == out1.0
        invariant channel > 1 ==> Row(buffer, 1) == Scaled(gain, out1.1)
        invariant forall c, j :: channel <= c < buffer.Length0 && 0 <= j < buffer.Length1 ==> buffer[c, j] == old(buffer[c, j])
      {
        assert Row(buffer, channel) == old(Row(buffer, channel));
        label before:
        ProcessOneChannel(buffer, channel, p, gain, step);
        if channel == 1 {
          assert Row(buffer, 0) == old@before(Row(buffer, 0));
        }
        channel := channel + 1;
      }
    }

    /**
     * The part of processBlock that touches the filters before any sample:
     * the knob-change reset, the dummy's targets and updateFilters.
     */
    method UpdateForBlock(p: Params)
      requires Valid() && InRange(p)
      modifies this, filters[0], filters[1], dummy
      ensures Valid()
      ensures prevHighPassKnobPos == p.highPassKnobPos && prevLowPassKnobPos == p.lowPassKnobPos
      ensures isHighPassContinuous == old(isHighPassContinuous) && isLowPassContinuous == old(isLowPassContinuous)
      ensures dummy.State() == DummyUpdate(old(dummy.State()), isHighPassContinuous, isLowPassContinuous, p)
      ensures filters[0].State() == LiveUpdate(old(filters[0].State()), old(KnobsChanged(p)), isHighPassContinuous, isLowPassContinuous, p)
      ensures filters[1].State() == LiveUpdate(old(filters[1].State()), old(KnobsChanged(p)), isHighPassContinuous, isLowPassContinuous, p)
    {
      ResetOnKnobChange(p);
      SetDummyTargets(p);
      UpdateFilters(p);
    }

    /**
     * processBlock: clear the output channels that have no input, reset the
     * live filters if a knob position moved, set the dummy's targets, run
     * updateFilters, then feed every input channel through its own filter
     * and scale the outputs by the gain. The dummy never sees the samples;
     * a live filter beyond the input channels is updated but not run.
     */
    method ProcessBlock(buffer: array2<real>, numIn: nat, numOut: nat, p: Params, gain: real, step: Solver)
      requires Valid() && InRange(p)
      requires numIn <= |filters| && numIn <= buffer.Length0 && numOut <= buffer.Length0
      modifies this, filters[0], filters[1], dummy, buffer
      ensures Valid()
      ensures prevHighPassKnobPos == p.highPassKnobPos && prevLowPassKnobPos == p.lowPassKnobPos
      ensures isHighPassContinuous == old(isHighPassContinuous) && isLowPassContinuous == old(isLowPassContinuous)
      ensures dummy.State() == DummyUpdate(old(dummy.State()), isHighPassContinuous, isLowPassContinuous, p)
      ensures var live := LiveUpdate(old(filters[0].State()), old(KnobsChanged(p)), isHighPassContinuous, isLowPassContinuous, p);
        filters[0].State() == if numIn > 0 then ChannelRun(live, p, step, old(Row(buffer, 0))).0 else live
      ensures var live := LiveUpdate(old(filters[1].State()), old(KnobsChanged(p)), isHighPassContinuous, isLowPassContinuous, p);
        filters[1].State() == if numIn > 1 then ChannelRun(live, p, step, old(Row(buffer, 1))).0 else live
      ensures numIn > 0 ==> Row(buffer, 0) == Scaled(gain, ChannelRun(LiveUpdate(old(filters[0].State()), old(KnobsChanged(p)),
        isHighPassContinuous, isLowPassContinuous, p), p, step, old(Row(buffer, 0))).1)
      ensures numIn > 1 ==> Row(buffer, 1) == Scaled(gain, ChannelRun(LiveUpdate(old(filters[1].State()), old(KnobsChanged(p)),
        isHighPassContinuous, isLowPassContinuous, p), p, step, old(Row(buffer, 1))).1)
      ensures forall c, j :: numIn <= c < numOut && 0 <= j < buffer.Length1 ==> buffer[c, j] == 0.0
      ensures forall c, j :: numIn <= c < buffer.Length0 && numOut <= c && 0 <= j < buffer.Length1 ==> buffer[c, j] == old(buffer[c, j])
    {
      ClearChannels(buffer, numIn, numOut);
      if numIn > 0 {
        assert Row(buffer, 0) == old(Row(buffer, 0));
      }
      if numIn > 1 {
        assert Row(buffer, 1) == old(Row(buffer, 1));
      }
      UpdateForBlock(p);
      ProcessChannels(buffer, numIn, p, gain, step);
    }
  }
}
