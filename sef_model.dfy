/**
 * The state of one RCA_MK2_SEF filter instance as a value, and each of its
 * operations as a function from the old state to the new one. The class in
 * module Sef is proved to follow these functions step by step.
 */
module SefModel {
  import opened Elements
  import opened Mapping

  /** The six reactive elements of the high-pass section (primary and mod pair). */
  datatype HighPassStage = HighPassStage(
    cHP1: Reactive, cHP2: Reactive, lHP1: Reactive,
    cHPm1: Reactive, cHPm2: Reactive, lHPm: Reactive)

  /** The six reactive elements of the low-pass section (primary and mod pair). */
  datatype LowPassStage = LowPassStage(
    cLP1: Reactive, lLP1: Reactive, lLP2: Reactive,
    cLPm1: Reactive, lLPm1: Reactive, lLPm2: Reactive)

  /** The leaves of the circuit: twelve reactive elements and the two resistors Rin and Rt. */
  datatype Network = Network(hp: HighPassStage, lp: LowPassStage, rin: real, rt: real)

  /** Everything an instance holds. `root2` and `twoPi` are its constant members. */
  datatype Filter = Filter(
    net: Network,
    highPassMod: int, lowPassMod: int,
    highPassCutoff: real, lowPassCutoff: real,
    inputImpedance: real, outputImpedance: real,
    k: real, fs: real,
    root2: real, twoPi: real)

  /** The per-sample scattering solver of the WDF library: the network's memory after one sample, and the output. */
  type Solver = (Network, real) -> (Network, real)

  // ---------------------------------------------------------------------------
  // Views of a network

  /** The configured values: the twelve reactive elements in the order prepare() visits them, then Rin and Rt. */
  function Values(n: Network): seq<real>
  {
    [n.hp.cHP1.value, n.hp.cHP2.value, n.hp.cHPm1.value, n.hp.cHPm2.value,
     n.lp.cLP1.value, n.lp.cLPm1.value,
     n.hp.lHP1.value, n.hp.lHPm.value, n.lp.lLP1.value, n.lp.lLP2.value,
     n.lp.lLPm1.value, n.lp.lLPm2.value,
     n.rin, n.rt]
  }

  /** The sample rates of the twelve reactive elements. */
  function Rates(n: Network): seq<real>
  {
    [n.hp.cHP1.sampleRate, n.hp.cHP2.sampleRate, n.hp.cHPm1.sampleRate, n.hp.cHPm2.sampleRate,
     n.lp.cLP1.sampleRate, n.lp.cLPm1.sampleRate,
     n.hp.lHP1.sampleRate, n.hp.lHPm.sampleRate, n.lp.lLP1.sampleRate, n.lp.lLP2.sampleRate,
     n.lp.lLPm1.sampleRate, n.lp.lLPm2.sampleRate]
  }

  /** The integrator memories of the twelve reactive elements. */
  function Memory(n: Network): seq<real>
  {
    [n.hp.cHP1.z, n.hp.cHP2.z, n.hp.cHPm1.z, n.hp.cHPm2.z,
     n.lp.cLP1.z, n.lp.cLPm1.z,
     n.hp.lHP1.z, n.hp.lHPm.z, n.lp.lLP1.z, n.lp.lLP2.z,
     n.lp.lLPm1.z, n.lp.lLPm2.z]
  }

  /** The configured value of the leaf a port of the adaptor tree names. */
  function PortValue(n: Network, p: Port): real
  {
    match p
    case Rin => n.rin
    case CHPm1 => n.hp.cHPm1.value
    case LHPm => n.hp.lHPm.value
    case CHPm2 => n.hp.cHPm2.value
    case CHP1 => n.hp.cHP1.value
    case LHP1 => n.hp.lHP1.value
    case CHP2 => n.hp.cHP2.value
    case LLP1 => n.lp.lLP1.value
    case CLP1 => n.lp.cLP1.value
    case LLP2 => n.lp.lLP2.value
    case LLPm1 => n.lp.lLPm1.value
    case CLPm1 => n.lp.cLPm1.value
    case LLPm2 => n.lp.lLPm2.value
    case Rt => n.rt
  }

  /** Where a port's value sits in Values. */
  function ValueIndex(p: Port): (i: nat)
    ensures i < 14
  {
    match p
    case CHP1 => 0 case CHP2 => 1 case CHPm1 => 2 case CHPm2 => 3
    case CLP1 => 4 case CLPm1 => 5
    case LHP1 => 6 case LHPm => 7 case LLP1 => 8 case LLP2 => 9
    case LLPm1 => 10 case LLPm2 => 11
    case Rin => 12 case Rt => 13
  }

  /**
   * Every leaf of the adaptor tree is one of the configured values: reading
   * Values at the port's index gives the value of the element the port names.
   */
  lemma ValuesByPort(n: Network, p: Port)
    ensures Values(n)[ValueIndex(p)] == PortValue(n, p)
  {
  }

  /** The fourteen leaves of the ladder, in order, name fourteen distinct entries of Values. */
  lemma LadderCoversValues()
    ensures forall i, j :: 0 <= i < j < |LadderOrder| ==> ValueIndex(LadderOrder[i]) != ValueIndex(LadderOrder[j])
  {
    LadderOrderDistinct();
  }

  predicate MemoryCleared(n: Network)
  {
    forall i :: 0 <= i < |Memory(n)| ==> Memory(n)[i] == 0.0
  }

  /** Every reactive element was prepared at fs. */
  predicate AllPreparedAt(n: Network, fs: real)
  {
    && n.hp.cHP1.sampleRate == fs && n.hp.cHP2.sampleRate == fs && n.hp.lHP1.sampleRate == fs
    && n.hp.cHPm1.sampleRate == fs && n.hp.cHPm2.sampleRate == fs && n.hp.lHPm.sampleRate == fs
    && n.lp.cLP1.sampleRate == fs && n.lp.lLP1.sampleRate == fs && n.lp.lLP2.sampleRate == fs
    && n.lp.cLPm1.sampleRate == fs && n.lp.lLPm1.sampleRate == fs && n.lp.lLPm2.sampleRate == fs
  }

  /** A network is nothing more than its values, sample rates and memories. */
  lemma NetworkDetermined(a: Network, b: Network)
    requires Values(a) == Values(b) && Rates(a) == Rates(b) && Memory(a) == Memory(b)
    ensures a == b
  {
    assert a.hp.cHP1 == b.hp.cHP1 by { assert Values(a)[0] == Values(b)[0] && Rates(a)[0] == Rates(b)[0] && Memory(a)[0] == Memory(b)[0]; }
    assert a.hp.cHP2 == b.hp.cHP2 by { assert Values(a)[1] == Values(b)[1] && Rates(a)[1] == Rates(b)[1] && Memory(a)[1] == Memory(b)[1]; }
    assert a.hp.cHPm1 == b.hp.cHPm1 by { assert Values(a)[2] == Values(b)[2] && Rates(a)[2] == Rates(b)[2] && Memory(a)[2] == Memory(b)[2]; }
    assert a.hp.cHPm2 == b.hp.cHPm2 by { assert Values(a)[3] == Values(b)[3] && Rates(a)[3] == Rates(b)[3] && Memory(a)[3] == Memory(b)[3]; }
    assert a.lp.cLP1 == b.lp.cLP1 by { assert Values(a)[4] == Values(b)[4] && Rates(a)[4] == Rates(b)[4] && Memory(a)[4] == Memory(b)[4]; }
    assert a.lp.cLPm1 == b.lp.cLPm1 by { assert Values(a)[5] == Values(b)[5] && Rates(a)[5] == Rates(b)[5] && Memory(a)[5] == Memory(b)[5]; }
    assert a.hp.lHP1 == b.hp.lHP1 by { assert Values(a)[6] == Values(b)[6] && Rates(a)[6] == Rates(b)[6] && Memory(a)[6] == Memory(b)[6]; }
    assert a.hp.lHPm == b.hp.lHPm by { assert Values(a)[7] == Values(b)[7] && Rates(a)[7] == Rates(b)[7] && Memory(a)[7] == Memory(b)[7]; }
    assert a.lp.lLP1 == b.lp.lLP1 by { assert Values(a)[8] == Values(b)[8] && Rates(a)[8] == Rates(b)[8] && Memory(a)[8] == Memory(b)[8]; }
    assert a.lp.lLP2 == b.lp.lLP2 by { assert Values(a)[9] == Values(b)[9] && Rates(a)[9] == Rates(b)[9] && Memory(a)[9] == Memory(b)[9]; }
    assert a.lp.lLPm1 == b.lp.lLPm1 by { assert Values(a)[10] == Values(b)[10] && Rates(a)[10] == Rates(b)[10] && Memory(a)[10] == Memory(b)[10]; }
    assert a.lp.lLPm2 == b.lp.lLPm2 by { assert Values(a)[11] == Values(b)[11] && Rates(a)[11] == Rates(b)[11] && Memory(a)[11] == Memory(b)[11]; }
    assert a.rin == b.rin by { assert Values(a)[12] == Values(b)[12]; }
    assert a.rt == b.rt by { assert Values(a)[13] == Values(b)[13]; }
  }

  // ---------------------------------------------------------------------------
  // Well-formed states

  /**
   * What every reachable state satisfies: positive k and stored cutoffs (the
   * formulas divide by them), root2 the square root of two, a positive twoPi,
   * the resistors holding the stored impedances, and every element prepared
   * at the instance's sample rate.
   */
  predicate Wf(s: Filter)
  {
    && s.k > 0.0 && s.highPassCutoff > 0.0 && s.lowPassCutoff > 0.0
    && s.root2 > 0.0 && s.root2 * s.root2 == 2.0 && s.twoPi > 0.0
    && s.net.rin == s.inputImpedance && s.net.rt == s.outputImpedance
    && AllPreparedAt(s.net, s.fs)
  }

  function DefaultCapacitor(c: real): Reactive { Reactive(c, 48000.0, 0.0) }
  function DefaultInductor(l: real): Reactive { Reactive(l, 48000.0, 0.0) }

  /** A freshly constructed instance. */
  function Initial(root2: real, twoPi: real): (r: Filter)
    requires root2 > 0.0 && root2 * root2 == 2.0 && twoPi > 0.0
    ensures Wf(r) && MemoryCleared(r.net)
    ensures r.highPassMod == 1 && r.lowPassMod == 1
    ensures r.highPassCutoff == 20.0 && r.lowPassCutoff == 20000.0
    ensures r.inputImpedance == 560.0 && r.outputImpedance == 560.0 && r.k == 560.0
    ensures r.fs == 48000.0 && AllPreparedAt(r.net, 48000.0)
    ensures Values(r.net) == [5.0e-8, 1.0e-8, 5.0e-8, 5.0e-8, 1.0e-8, 1.0e-8,
                              1.0e-3, 1.0e-3, 1.0e-3, 1.0e-3, 1.0e-3, 1.0e-3, 560.0, 560.0]
  {
    Filter(
      Network(
        HighPassStage(DefaultCapacitor(5.0e-8), DefaultCapacitor(1.0e-8), DefaultInductor(1.0e-3),
                      DefaultCapacitor(5.0e-8), DefaultCapacitor(5.0e-8), DefaultInductor(1.0e-3)),
        LowPassStage(DefaultCapacitor(1.0e-8), DefaultInductor(1.0e-3), DefaultInductor(1.0e-3),
                     DefaultCapacitor(1.0e-8), DefaultInductor(1.0e-3), DefaultInductor(1.0e-3)),
        560.0, 560.0),
      1, 1, 20.0, 20000.0, 560.0, 560.0, 560.0, 48000.0, root2, twoPi)
  }

  // ---------------------------------------------------------------------------
  // Section views and the mod bypass rule

  predicate HighPassPrimaryIs(s: Filter, v: ComponentValues)
  {
    s.net.hp.cHP1.value == v.c && s.net.hp.cHP2.value == v.c && s.net.hp.lHP1.value == v.l
  }

  predicate HighPassModIs(s: Filter, v: ComponentValues)
  {
    s.net.hp.cHPm1.value == v.c && s.net.hp.cHPm2.value == v.c && s.net.hp.lHPm.value == v.l
  }

  predicate LowPassPrimaryIs(s: Filter, v: ComponentValues)
  {
    s.net.lp.cLP1.value == v.c && s.net.lp.lLP1.value == v.l && s.net.lp.lLP2.value == v.l
  }

  predicate LowPassModIs(s: Filter, v: ComponentValues)
  {
    s.net.lp.cLPm1.value == v.c && s.net.lp.lLPm1.value == v.l && s.net.lp.lLPm2.value == v.l
  }

  /** What the high-pass mod pair is set to when the primary pair is set to v. */
  function HighPassModTarget(mod: int, k: real, root2: real, v: ComponentValues): ComponentValues
    requires k > 0.0 && root2 > 0.0
  {
    if mod != 0 then v else HighPassValues(HighPassBypassOmega, k, root2)
  }

  /** What the low-pass mod pair is set to when the primary pair is set to v. */
  function LowPassModTarget(mod: int, k: real, root2: real, v: ComponentValues): ComponentValues
    requires k > 0.0 && root2 > 0.0
  {
    if mod != 0 then v else LowPassValues(LowPassBypassOmega, k, root2)
  }

  /** The high-pass elements' sample rates and memories are as in `s`. */
  predicate HighPassKept(s: Filter, r: Filter)
  {
    var a, b := s.net.hp, r.net.hp;
    && a.cHP1.sampleRate == b.cHP1.sampleRate && a.cHP1.z == b.cHP1.z
    && a.cHP2.sampleRate == b.cHP2.sampleRate && a.cHP2.z == b.cHP2.z
    && a.lHP1.sampleRate == b.lHP1.sampleRate && a.lHP1.z == b.lHP1.z
    && a.cHPm1.sampleRate == b.cHPm1.sampleRate && a.cHPm1.z == b.cHPm1.z
    && a.cHPm2.sampleRate == b.cHPm2.sampleRate && a.cHPm2.z == b.cHPm2.z
    && a.lHPm.sampleRate == b.lHPm.sampleRate && a.lHPm.z == b.lHPm.z
  }

  /** The low-pass elements' sample rates and memories are as in `s`. */
  predicate LowPassKept(s: Filter, r: Filter)
  {
    var a, b := s.net.lp, r.net.lp;
    && a.cLP1.sampleRate == b.cLP1.sampleRate && a.cLP1.z == b.cLP1.z
    && a.lLP1.sampleRate == b.lLP1.sampleRate && a.lLP1.z == b.lLP1.z
    && a.lLP2.sampleRate == b.lLP2.sampleRate && a.lLP2.z == b.lLP2.z
    && a.cLPm1.sampleRate == b.cLPm1.sampleRate && a.cLPm1.z == b.cLPm1.z
    && a.lLPm1.sampleRate == b.lLPm1.sampleRate && a.lLPm1.z == b.lLPm1.z
    && a.lLPm2.sampleRate == b.lLPm2.sampleRate && a.lLPm2.z == b.lLPm2.z
  }

  /** `r` differs from `s` at most in the values of the high-pass elements. */
  predicate OnlyHighPassValuesChange(s: Filter, r: Filter)
  {
    r == s.(net := s.net.(hp := r.net.hp)) && HighPassKept(s, r)
  }

  /** `r` differs from `s` at most in the values of the low-pass elements. */
  predicate OnlyLowPassValuesChange(s: Filter, r: Filter)
  {
    r == s.(net := s.net.(lp := r.net.lp)) && LowPassKept(s, r)
  }

  // ---------------------------------------------------------------------------
  // High-pass section

  /**
   * setHighPassComponentValues(C, L): the primary pair gets (C, L); the mod
   * pair gets (C, L) too when the mod flag is set and the 1e-8 rad/s bypass
   * values otherwise. Nothing outside the section's values changes.
   */
  function SetHighPassComponentValues(s: Filter, c: real, l: real): (r: Filter)
    requires Wf(s)
    ensures Wf(r)
    ensures HighPassPrimaryIs(r, ComponentValues(c, l))
    ensures HighPassModIs(r, HighPassModTarget(s.highPassMod, s.k, s.root2, ComponentValues(c, l)))
    ensures OnlyHighPassValuesChange(s, r)
  {
    var h := s.net.hp;
    var m := HighPassModTarget(s.highPassMod, s.k, s.root2, ComponentValues(c, l));
    s.(net := s.net.(hp := HighPassStage(
      WithValue(h.cHP1, c), WithValue(h.cHP2, c), WithValue(h.lHP1, l),
      WithValue(h.cHPm1, m.c), WithValue(h.cHPm2, m.c), WithValue(h.lHPm, m.l))))
  }

  /** setHighPassCutoff(fc): the section follows the formula at wc = twoPi fc and fc is stored. */
  function SetHighPassCutoff(s: Filter, fc: real): (r: Filter)
    requires Wf(s) && fc > 0.0
    ensures Wf(r) && r.highPassCutoff == fc
    ensures HighPassPrimaryIs(r, HighPassValues(fc * s.twoPi, s.k, s.root2))
    ensures HighPassModIs(r, HighPassModTarget(s.highPassMod, s.k, s.root2, HighPassValues(fc * s.twoPi, s.k, s.root2)))
    ensures OnlyHighPassValuesChange(s.(highPassCutoff := fc), r)
  {
    var v := HighPassValues(fc * s.twoPi, s.k, s.root2);
    SetHighPassComponentValues(s, v.c, v.l).(highPassCutoff := fc)
  }

  /** setHighPassKnobPos(pos): the section takes the table pair of pos; the stored cutoff is kept. */
  function SetHighPassKnobPos(s: Filter, pos: int): (r: Filter)
    requires Wf(s) && ValidKnobPos(pos)
    ensures Wf(r)
    ensures HighPassPrimaryIs(r, HPVals[pos - 1])
    ensures HighPassModIs(r, HighPassModTarget(s.highPassMod, s.k, s.root2, HPVals[pos - 1]))
    ensures OnlyHighPassValuesChange(s, r)
  {
    var v := HighPassKnobValues(pos);
    SetHighPassComponentValues(s, v.c, v.l)
  }

  /**
   * setHighPassMod(mod): nothing happens when mod is the stored flag;
   * otherwise the flag is stored and the whole section is re-derived from
   * the stored continuous cutoff, discarding values a knob position set.
   */
  function SetHighPassMod(s: Filter, mod: int): (r: Filter)
    requires Wf(s)
    ensures Wf(r) && r.highPassMod == mod
    ensures mod == s.highPassMod ==> r == s
    ensures mod != s.highPassMod ==>
      && HighPassPrimaryIs(r, HighPassValues(s.highPassCutoff * s.twoPi, s.k, s.root2))
      && HighPassModIs(r, HighPassModTarget(mod, s.k, s.root2, HighPassValues(s.highPassCutoff * s.twoPi, s.k, s.root2)))
      && OnlyHighPassValuesChange(s.(highPassMod := mod), r)
  {
    if s.highPassMod != mod then SetHighPassCutoff(s.(highPassMod := mod), s.highPassCutoff) else s
  }

  // ---------------------------------------------------------------------------
  // Low-pass section

  /**
   * setLowPassComponentValues(C, L): the primary elements get (C, L); the mod
   * elements get (C, L) too when the mod flag is set and the 1e8 rad/s bypass
   * values otherwise.
   */
  function SetLowPassComponentValues(s: Filter, c: real, l: real): (r: Filter)
    requires Wf(s)
    ensures Wf(r)
    ensures LowPassPrimaryIs(r, ComponentValues(c, l))
    ensures LowPassModIs(r, LowPassModTarget(s.lowPassMod, s.k, s.root2, ComponentValues(c, l)))
    ensures OnlyLowPassValuesChange(s, r)
  {
    var p := s.net.lp;
    var m := LowPassModTarget(s.lowPassMod, s.k, s.root2, ComponentValues(c, l));
    s.(net := s.net.(lp := LowPassStage(
      WithValue(p.cLP1, c), WithValue(p.lLP1, l), WithValue(p.lLP2, l),
      WithValue(p.cLPm1, m.c), WithValue(p.lLPm1, m.l), WithValue(p.lLPm2, m.l))))
  }

  /** setLowPassCutoff(fc): the section follows the formula at wc = twoPi fc and fc is stored. */
  function SetLowPassCutoff(s: Filter, fc: real): (r: Filter)
    requires Wf(s) && fc > 0.0
    ensures Wf(r) && r.lowPassCutoff == fc
    ensures LowPassPrimaryIs(r, LowPassValues(fc * s.twoPi, s.k, s.root2))
    ensures LowPassModIs(r, LowPassModTarget(s.lowPassMod, s.k, s.root2, LowPassValues(fc * s.twoPi, s.k, s.root2)))
    ensures OnlyLowPassValuesChange(s.(lowPassCutoff := fc), r)
  {
    var v := LowPassValues(fc * s.twoPi, s.k, s.root2);
    SetLowPassComponentValues(s, v.c, v.l).(lowPassCutoff := fc)
  }

  /** setLowPassKnobPos(pos): the section takes the table pair of pos; the stored cutoff is kept. */
  function SetLowPassKnobPos(s: Filter, pos: int): (r: Filter)
    requires Wf(s) && ValidKnobPos(pos)
    ensures Wf(r)
    ensures LowPassPrimaryIs(r, LPVals[pos - 1])
    ensures LowPassModIs(r, LowPassModTarget(s.lowPassMod, s.k, s.root2, LPVals[pos - 1]))
    ensures OnlyLowPassValuesChange(s, r)
  {
    var v := LowPassKnobValues(pos);
    SetLowPassComponentValues(s, v.c, v.l)
  }

  /** setLowPassMod(mod): as for the high-pass section. */
  function SetLowPassMod(s: Filter, mod: int): (r: Filter)
    requires Wf(s)
    ensures Wf(r) && r.lowPassMod == mod
    ensures mod == s.lowPassMod ==> r == s
    ensures mod != s.lowPassMod ==>
      && LowPassPrimaryIs(r, LowPassValues(s.lowPassCutoff * s.twoPi, s.k, s.root2))
      && LowPassModIs(r, LowPassModTarget(mod, s.k, s.root2, LowPassValues(s.lowPassCutoff * s.twoPi, s.k, s.root2)))
      && OnlyLowPassValuesChange(s.(lowPassMod := mod), r)
  {
    if s.lowPassMod != mod then SetLowPassCutoff(s.(lowPassMod := mod), s.lowPassCutoff) else s
  }

  // ---------------------------------------------------------------------------
  // Impedances, k, sample rate, memory

  /** setInputImpedance(z): the stored impedance and Rin become z; the no-op guard is invisible. */
  function SetInputImpedance(s: Filter, z: real): (r: Filter)
    requires Wf(s)
    ensures Wf(r)
    ensures r == s.(inputImpedance := z, net := s.net.(rin := z))
  {
    if s.inputImpedance != z then s.(inputImpedance := z, net := s.net.(rin := z)) else s
  }

  /** setOutputImpedance(z): the stored impedance and Rt become z; the no-op guard is invisible. */
  function SetOutputImpedance(s: Filter, z: real): (r: Filter)
    requires Wf(s)
    ensures Wf(r)
    ensures r == s.(outputImpedance := z, net := s.net.(rt := z))
  {
    if s.outputImpedance != z then s.(outputImpedance := z, net := s.net.(rt := z)) else s
  }

  /** setKVal(k): only k changes; no component is re-derived. */
  function SetKVal(s: Filter, kVal: real): (r: Filter)
    requires Wf(s) && kVal > 0.0
    ensures Wf(r)
    ensures r == s.(k := kVal)
  {
    if s.k != kVal then s.(k := kVal) else s
  }

  function PreparedNetwork(n: Network, fs: real): Network
  {
    var h, p := n.hp, n.lp;
    n.(hp := HighPassStage(Prepared(h.cHP1, fs), Prepared(h.cHP2, fs), Prepared(h.lHP1, fs),
                           Prepared(h.cHPm1, fs), Prepared(h.cHPm2, fs), Prepared(h.lHPm, fs)),
       lp := LowPassStage(Prepared(p.cLP1, fs), Prepared(p.lLP1, fs), Prepared(p.lLP2, fs),
                          Prepared(p.cLPm1, fs), Prepared(p.lLPm1, fs), Prepared(p.lLPm2, fs)))
  }

  /** prepare(fs): fs is stored and every reactive element is prepared at it; values and memories are kept. */
  function Prepare(s: Filter, fs: real): (r: Filter)
    requires Wf(s)
    ensures Wf(r) && r.fs == fs && AllPreparedAt(r.net, fs)
    ensures Values(r.net) == Values(s.net) && Memory(r.net) == Memory(s.net)
    ensures r == s.(net := r.net, fs := fs)
  {
    s.(net := PreparedNetwork(s.net, fs), fs := fs)
  }

  function ClearedNetwork(n: Network): Network
  {
    var h, p := n.hp, n.lp;
    n.(hp := HighPassStage(Cleared(h.cHP1), Cleared(h.cHP2), Cleared(h.lHP1),
                           Cleared(h.cHPm1), Cleared(h.cHPm2), Cleared(h.lHPm)),
       lp := LowPassStage(Cleared(p.cLP1), Cleared(p.lLP1), Cleared(p.lLP2),
                          Cleared(p.cLPm1), Cleared(p.lLPm1), Cleared(p.lLPm2)))
  }

  /** reset(): every element's memory is cleared; every value, rate, flag, cutoff and impedance is kept. */
  function Reset(s: Filter): (r: Filter)
    ensures MemoryCleared(r.net)
    ensures Values(r.net) == Values(s.net) && Rates(r.net) == Rates(s.net)
    ensures r == s.(net := r.net)
    ensures Wf(s) ==> Wf(r)
  {
    s.(net := ClearedNetwork(s.net))
  }

  // ---------------------------------------------------------------------------
  // Processing

  /** The network `a` with the memories of `b`. */
  function WithMemoryOf(a: Network, b: Network): Network
  {
    var h, p := a.hp, a.lp;
    a.(hp := HighPassStage(h.cHP1.(z := b.hp.cHP1.z), h.cHP2.(z := b.hp.cHP2.z), h.lHP1.(z := b.hp.lHP1.z),
                           h.cHPm1.(z := b.hp.cHPm1.z), h.cHPm2.(z := b.hp.cHPm2.z), h.lHPm.(z := b.hp.lHPm.z)),
       lp := LowPassStage(p.cLP1.(z := b.lp.cLP1.z), p.lLP1.(z := b.lp.lLP1.z), p.lLP2.(z := b.lp.lLP2.z),
                          p.cLPm1.(z := b.lp.cLPm1.z), p.lLPm1.(z := b.lp.lLPm1.z), p.lLPm2.(z := b.lp.lLPm2.z)))
  }

  /**
   * processSample(x): one step of the solver, which returns the next
   * network and the output voltage. Only the new memories are kept of the
   * solver's network (ProcessSampleKeepsSettings).
   */
  function ProcessSample(s: Filter, step: Solver, x: real): (Filter, real)
  {
    var (next, y) := step(s.net, x);
    (s.(net := WithMemoryOf(s.net, next)), y)
  }

  /**
   * Scattering only moves the elements' memories, to those the solver
   * computed; no configured value, rate or setting changes, and the output
   * is the solver's.
   */
  lemma ProcessSampleKeepsSettings(s: Filter, step: Solver, x: real)
    ensures var r := ProcessSample(s, step, x);
      && Values(r.0.net) == Values(s.net) && Rates(r.0.net) == Rates(s.net)
      && Memory(r.0.net) == Memory(step(s.net, x).0)
      && r.0 == s.(net := r.0.net) && r.1 == step(s.net, x).1
      && (Wf(s) ==> Wf(r.0))
  {
  }

  /**
   * The samples xs fed through processSample in order: the final state and
   * one output per input.
   */
  function Run(s: Filter, step: Solver, xs: seq<real>): (r: (Filter, seq<real>))
    ensures |r.1| == |xs|
    decreases |xs|
  {
    if xs == [] then (s, [])
    else
      var (s1, y) := ProcessSample(s, step, xs[0]);
      var (s2, ys) := Run(s1, step, xs[1..]);
      (s2, [y] + ys)
  }

  /** Settings are never touched by processing, however many samples are fed. */
  lemma {:induction false} RunKeepsSettings(s: Filter, step: Solver, xs: seq<real>)
    ensures var r := Run(s, step, xs);
      && Values(r.0.net) == Values(s.net) && Rates(r.0.net) == Rates(s.net)
      && r.0 == s.(net := r.0.net)
      && (Wf(s) ==> Wf(r.0))
    decreases |xs|
  {
    if xs != [] {
      var p := ProcessSample(s, step, xs[0]);
      ProcessSampleKeepsSettings(s, step, xs[0]);
      RunKeepsSettings(p.0, step, xs[1..]);
    }
  }

  /** The order of the frequency-only transform and the length of its buffer (2 << 13). */
  const FftOrder: nat := 13
  const FftSize: nat := 16384

  /**
   * The stored impulse: a buffer of FftSize samples whose first sample is
   * `level` and every other sample zero (an aggregate with one initialiser).
   */
  function Impulse(level: real): (r: seq<real>)
    ensures |r| == FftSize
    ensures r[0] == level
    ensures forall i :: 1 <= i < |r| ==> r[i] == 0.0
  {
    [level] + seq(FftSize - 1, _ => 0.0)
  }

  // ---------------------------------------------------------------------------
  // Properties

  /** Feeding a block in two parts, carrying the state across, equals feeding it whole. */
  lemma {:induction false} RunAppend(s: Filter, step: Solver, xs: seq<real>, ys: seq<real>)
    ensures Run(s, step, xs + ys).0 == Run(Run(s, step, xs).0, step, ys).0
    ensures Run(s, step, xs + ys).1 == Run(s, step, xs).1 + Run(Run(s, step, xs).0, step, ys).1
    decreases |xs|
  {
    if xs == [] {
      assert xs + ys == ys;
    } else {
      var p := ProcessSample(s, step, xs[0]);
      assert (xs + ys)[1..] == xs[1..] + ys;
      RunAppend(p.0, step, xs[1..], ys);
      var mid := Run(p.0, step, xs[1..]);
      var rest := Run(mid.0, step, ys);
      assert [p.1] + (mid.1 + rest.1) == ([p.1] + mid.1) + rest.1;
    }
  }

  /** One more sample at the end of a block. */
  lemma RunSnoc(s: Filter, step: Solver, xs: seq<real>, x: real)
    ensures Run(s, step, xs + [x]) ==
      (ProcessSample(Run(s, step, xs).0, step, x).0,
       Run(s, step, xs).1 + [ProcessSample(Run(s, step, xs).0, step, x).1])
  {
    RunAppend(s, step, xs, [x]);
    var t := Run(s, step, xs).0;
    var (t1, y) := ProcessSample(t, step, x);
    assert [x][0] == x && [x][1..] == [];
    assert Run(t1, step, []) == (t1, []);
    assert Run(t, step, [x]) == (t1, [y] + []);
    assert [y] + [] == [y];
  }

  /** The prefix of length i + 1 is the prefix of length i followed by one more sample. */
  lemma RunPrefix(s: Filter, step: Solver, xs: seq<real>, i: nat)
    requires i < |xs|
    ensures Run(s, step, xs[..i + 1]).0 == ProcessSample(Run(s, step, xs[..i]).0, step, xs[i]).0
    ensures Run(s, step, xs[..i + 1]).1 == Run(s, step, xs[..i]).1 + [ProcessSample(Run(s, step, xs[..i]).0, step, xs[i]).1]
  {
    assert xs[..i + 1] == xs[..i] + [xs[i]];
    RunSnoc(s, step, xs[..i], xs[i]);
  }

  /**
   * Resetting after any amount of processing gives exactly the state a reset
   * gives before it: processing leaves no trace that reset does not clear.
   */
  lemma ResetAfterRun(s: Filter, step: Solver, xs: seq<real>)
    ensures Reset(Run(s, step, xs).0) == Reset(s)
  {
    RunKeepsSettings(s, step, xs);
    var a, b := Reset(Run(s, step, xs).0), Reset(s);
    assert Memory(a.net) == Memory(b.net) by {
      assert |Memory(a.net)| == |Memory(b.net)|;
      forall i | 0 <= i < |Memory(a.net)| ensures Memory(a.net)[i] == Memory(b.net)[i] {
      }
    }
    NetworkDetermined(a.net, b.net);
  }

  /** setHighPassCutoff(fc) twice in a row is setHighPassCutoff(fc) once. */
  lemma HighPassCutoffIdempotent(s: Filter, fc: real)
    requires Wf(s) && fc > 0.0
    ensures SetHighPassCutoff(SetHighPassCutoff(s, fc), fc) == SetHighPassCutoff(s, fc)
  {
  }

  lemma LowPassCutoffIdempotent(s: Filter, fc: real)
    requires Wf(s) && fc > 0.0
    ensures SetLowPassCutoff(SetLowPassCutoff(s, fc), fc) == SetLowPassCutoff(s, fc)
  {
  }

  /**
   * Toggling the high-pass mod flag away and back gives exactly the state
   * setHighPassCutoff(stored cutoff) gives under the original flag.
   */
  lemma HighPassModRoundTrip(s: Filter, mod: int)
    requires Wf(s) && mod != s.highPassMod
    ensures SetHighPassMod(SetHighPassMod(s, mod), s.highPassMod) == SetHighPassCutoff(s, s.highPassCutoff)
  {
  }

  lemma LowPassModRoundTrip(s: Filter, mod: int)
    requires Wf(s) && mod != s.lowPassMod
    ensures SetLowPassMod(SetLowPassMod(s, mod), s.lowPassMod) == SetLowPassCutoff(s, s.lowPassCutoff)
  {
  }

  /**
   * In continuous mode (the section last set by setHighPassCutoff) the round
   * trip restores the state bit for bit.
   */
  lemma HighPassModRoundTripRestores(t: Filter, fc: real, mod: int)
    requires Wf(t) && fc > 0.0 && mod != t.highPassMod
    ensures SetHighPassMod(SetHighPassMod(SetHighPassCutoff(t, fc), mod), t.highPassMod) == SetHighPassCutoff(t, fc)
  {
    HighPassModRoundTrip(SetHighPassCutoff(t, fc), mod);
    HighPassCutoffIdempotent(t, fc);
  }

  lemma LowPassModRoundTripRestores(t: Filter, fc: real, mod: int)
    requires Wf(t) && fc > 0.0 && mod != t.lowPassMod
    ensures SetLowPassMod(SetLowPassMod(SetLowPassCutoff(t, fc), mod), t.lowPassMod) == SetLowPassCutoff(t, fc)
  {
    LowPassModRoundTrip(SetLowPassCutoff(t, fc), mod);
    LowPassCutoffIdempotent(t, fc);
  }

  /** The two sections are independent: setting one never disturbs the other, in either order. */
  lemma SectionsCommute(s: Filter, hpc: real, lpc: real)
    requires Wf(s) && hpc > 0.0 && lpc > 0.0
    ensures SetHighPassCutoff(SetLowPassCutoff(s, lpc), hpc) == SetLowPassCutoff(SetHighPassCutoff(s, hpc), lpc)
  {
    var a, b := SetLowPassCutoff(s, lpc), SetHighPassCutoff(s, hpc);
    var x, y := SetHighPassCutoff(a, hpc), SetLowPassCutoff(b, lpc);
    assert a.net.hp == s.net.hp && b.net.lp == s.net.lp;
    assert x.net.hp == b.net.hp && x.net.lp == a.net.lp;
    assert y.net.lp == a.net.lp && y.net.hp == b.net.hp;
  }
}
