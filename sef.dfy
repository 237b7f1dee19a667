/**
 * One RCA_MK2_SEF instance as an object: the twelve reactive elements, the
 * two resistors and the settings are fields the setters update in place.
 * Every method is proved to move State() exactly as the matching function of
 * SefModel does, so what is proved there holds of the object.
 */
module Sef {
  import opened Elements
  import opened Mapping
  import SefModel

  class RcaMk2Sef {
    /** C_HP1, C_HP2, L_HP1 and the mod elements C_HPm1, C_HPm2, L_HPm. */
    var hp: SefModel.HighPassStage
    /** C_LP1, L_LP1, L_LP2 and the mod elements C_LPm1, L_LPm1, L_LPm2. */
    var lp: SefModel.LowPassStage
    var rin: real
    var rt: real

    var highPassMod: int
    var lowPassMod: int
    var highPassCutoff: real
    var lowPassCutoff: real
    var inputImpedance: real
    var outputImpedance: real
    var k: real
    var fs: real

    const root2: real
    const twoPi: real
    /** The first sample of the stored impulse. */
    const impulseLevel: real

    /** The object's fields as a value. */
    function State(): SefModel.Filter
      reads this
    {
      SefModel.Filter(
        SefModel.Network(
          hp, lp, rin, rt),
        highPassMod, lowPassMod, highPassCutoff, lowPassCutoff,
        inputImpedance, outputImpedance, k, fs, root2, twoPi)
    }

    predicate Valid()
      reads this
    {
      SefModel.Wf(State())
    }

    /** The default member initialisers. */
    constructor (root2: real, twoPi: real, impulseLevel: real)
      requires root2 > 0.0 && root2 * root2 == 2.0 && twoPi > 0.0
      ensures Valid()
      ensures State() == SefModel.Initial(root2, twoPi)
      ensures this.impulseLevel == impulseLevel
    {
      this.root2 := root2;
      this.twoPi := twoPi;
      this.impulseLevel := impulseLevel;
      highPassMod := 1;
      lowPassMod := 1;
      highPassCutoff := 20.0;
      lowPassCutoff := 20000.0;
      inputImpedance := 560.0;
      outputImpedance := 560.0;
      k := 560.0;
      fs := 48000.0;
      rt := 560.0;
      lp := SefModel.LowPassStage(
        Reactive(1.0e-8, 48000.0, 0.0), Reactive(1.0e-3, 48000.0, 0.0), Reactive(1.0e-3, 48000.0, 0.0),
        Reactive(1.0e-8, 48000.0, 0.0), Reactive(1.0e-3, 48000.0, 0.0), Reactive(1.0e-3, 48000.0, 0.0));
      hp := SefModel.HighPassStage(
        Reactive(5.0e-8, 48000.0, 0.0), Reactive(1.0e-8, 48000.0, 0.0), Reactive(1.0e-3, 48000.0, 0.0),
        Reactive(5.0e-8, 48000.0, 0.0), Reactive(5.0e-8, 48000.0, 0.0), Reactive(1.0e-3, 48000.0, 0.0));
      rin := 560.0;
    }

    /** prepare(fs): every element, in the order of the source, is prepared at fs. */
    method Prepare(sampleRate: real)
      requires Valid()
      modifies this
      ensures Valid()
      ensures State() == SefModel.Prepare(old(State()), sampleRate)
    {
      fs := sampleRate;
      var n := SefModel.PreparedNetwork(State().net, sampleRate);
      hp, lp := n.hp, n.lp;
    }

    /** reset(): every element's memory is cleared. */
    method Reset()
      requires Valid()
      modifies this
      ensures Valid()
      ensures State() == SefModel.Reset(old(State()))
    {
      var n := SefModel.ClearedNetwork(State().net);
      hp, lp := n.hp, n.lp;
    }

    method SetOutputImpedance(newZ: real)
      requires Valid()
      modifies this
      ensures Valid()
      ensures State() == SefModel.SetOutputImpedance(old(State()), newZ)
    {
      if outputImpedance != newZ {
        outputImpedance := newZ;
        rt := outputImpedance;
      }
    }

    method SetInputImpedance(newZ: real)
      requires Valid()
      modifies this
      ensures Valid()
      ensures State() == SefModel.SetInputImpedance(old(State()), newZ)
    {
      if inputImpedance != newZ {
        inputImpedance := newZ;
        rin := inputImpedance;
      }
    }

    method SetHighPassComponentValues(c: real, l: real)
      requires Valid()
      modifies this
      ensures Valid()
      ensures State() == SefModel.SetHighPassComponentValues(old(State()), c, l)
    {
      hp := hp.(cHP1 := WithValue(hp.cHP1, c), cHP2 := WithValue(hp.cHP2, c), lHP1 := WithValue(hp.lHP1, l));
      var mc, ml := c, l;
      if highPassMod == 0 {
        var bypass := HighPassValues(HighPassBypassOmega, k, root2);
        mc, ml := bypass.c, bypass.l;
      }
      hp := hp.(cHPm1 := WithValue(hp.cHPm1, mc), cHPm2 := WithValue(hp.cHPm2, mc), lHPm := WithValue(hp.lHPm, ml));
    }

    method SetHighPassCutoff(newCutoff: real)
      requires Valid() && newCutoff > 0.0
      modifies this
      ensures Valid()
      ensures State() == SefModel.SetHighPassCutoff(old(State()), newCutoff)
    {
      var v := HighPassValues(newCutoff * twoPi, k, root2);
      SetHighPassComponentValues(v.c, v.l);
      highPassCutoff := newCutoff;
    }

    method SetHighPassKnobPos(pos: int)
      requires Valid() && ValidKnobPos(pos)
      modifies this
      ensures Valid()
      ensures State() == SefModel.SetHighPassKnobPos(old(State()), pos)
    {
      var values := HPVals[pos - 1];
      SetHighPassComponentValues(values.c, values.l);
    }

    method SetLowPassComponentValues(c: real, l: real)
      requires Valid()
      modifies this
      ensures Valid()
      ensures State() == SefModel.SetLowPassComponentValues(old(State()), c, l)
    {
      lp := lp.(cLP1 := WithValue(lp.cLP1, c), lLP1 := WithValue(lp.lLP1, l), lLP2 := WithValue(lp.lLP2, l));
      var mc, ml := c, l;
      if lowPassMod == 0 {
        var bypass := LowPassValues(LowPassBypassOmega, k, root2);
        mc, ml := bypass.c, bypass.l;
      }
      lp := lp.(cLPm1 := WithValue(lp.cLPm1, mc), lLPm1 := WithValue(lp.lLPm1, ml), lLPm2 := WithValue(lp.lLPm2, ml));
    }

    method SetLowPassCutoff(newCutoff: real)
      requires Valid() && newCutoff > 0.0
      modifies this
      ensures Valid()
      ensures State() == SefModel.SetLowPassCutoff(old(State()), newCutoff)
    {
      var v := LowPassValues(newCutoff * twoPi, k, root2);
      SetLowPassComponentValues(v.c, v.l);
      lowPassCutoff := newCutoff;
    }

    method SetLowPassKnobPos(pos: int)
      requires Valid() && ValidKnobPos(pos)
      modifies this
      ensures Valid()
      ensures State() == SefModel.SetLowPassKnobPos(old(State()), pos)
    {
      var values := LPVals[pos - 1];
      SetLowPassComponentValues(values.c, values.l);
    }

    method SetLowPassMod(mod: int)
      requires Valid()
      modifies this
      ensures Valid()
      ensures State() == SefModel.SetLowPassMod(old(State()), mod)
    {
      if lowPassMod != mod {
        lowPassMod := mod;
        SetLowPassCutoff(lowPassCutoff);
      }
    }

    method SetHighPassMod(mod: int)
      requires Valid()
      modifies this
      ensures Valid()
      ensures State() == SefModel.SetHighPassMod(old(State()), mod)
    {
      if highPassMod != mod {
        highPassMod := mod;
        SetHighPassCutoff(highPassCutoff);
      }
    }

    method SetKVal(kVal: real)
      requires Valid() && kVal > 0.0
      modifies this
      ensures Valid()
      ensures State() == SefModel.SetKVal(old(State()), kVal)
    {
      if k != kVal {
        k := kVal;
      }
    }

    /** One sample through the network; `step` is the library's scattering solver. */
    method ProcessSample(x: real, step: SefModel.Solver) returns (y: real)
      requires Valid()
      modifies this
      ensures Valid()
      ensures (State(), y) == SefModel.ProcessSample(old(State()), step, x)
    {
      SefModel.ProcessSampleKeepsSettings(State(), step, x);
      var (next, out) := step(State().net, x);
      var n := SefModel.WithMemoryOf(State().net, next);
      hp, lp := n.hp, n.lp;
      y := out;
    }

    /** result[i] is the output of processSample for xs[i], the samples being fed in order. */
    method ProcessSamples(xs: seq<real>, result: array<real>, step: SefModel.Solver)
      requires Valid() && result.Length == |xs|
      modifies this, result
      ensures Valid()
      ensures (State(), result[..]) == SefModel.Run(old(State()), step, xs)
    {
      ghost var s0 := State();
      var i := 0;
      while i < |xs|
        invariant 0 <= i <= |xs|
        invariant Valid()
        invariant (State(), result[..i]) == SefModel.Run(s0, step, xs[..i])
      {
        SefModel.RunPrefix(s0, step, xs, i);
        var y := ProcessSample(xs[i], step);
        result[i] := y;
        assert result[..i + 1] == result[..i] + [y];
        i := i + 1;
      }
      assert xs[..i] == xs;
      assert result[..] == result[..i];
    }

    /**
     * computeMagnitudeResponse: the impulse response of the current network,
     * one sample per entry of `result`, handed to the frequency-only
     * transform in place; the network is reset afterwards, so the call
     * leaves exactly the state a plain reset() leaves.
     */
    method ComputeMagnitudeResponse(result: array<real>, step: SefModel.Solver, transform: seq<real> -> seq<real>)
      requires Valid() && result.Length == SefModel.FftSize
      requires forall xs :: |transform(xs)| == |xs|
      modifies this, result
      ensures Valid()
      ensures result[..] == transform(SefModel.Run(old(State()), step, SefModel.Impulse(impulseLevel)).1)
      ensures State() == SefModel.Reset(old(State()))
    {
      ProcessSamples(SefModel.Impulse(impulseLevel), result, step);
      TransformInPlace(result, transform);
      SefModel.ResetAfterRun(old(State()), step, SefModel.Impulse(impulseLevel));
      Reset();
    }

    method GetHighPassCutoff() returns (c: real)
      ensures c == State().highPassCutoff
    {
      c := highPassCutoff;
    }

    method GetLowPassCutoff() returns (c: real)
      ensures c == State().lowPassCutoff
    {
      c := lowPassCutoff;
    }
  }

  /** The frequency-only transform, computed over the buffer and written back into it. */
  method TransformInPlace(result: array<real>, transform: seq<real> -> seq<real>)
    requires forall xs :: |transform(xs)| == |xs|
    modifies result
    ensures result[..] == transform(old(result[..]))
  {
    var spectrum := transform(result[..]);
    forall j | 0 <= j < result.Length {
      result[j] := spectrum[j];
    }
  }
}
