/**
 * Parameter-to-component mapping of the RCA MK-II filter sections:
 * the continuous cutoff formulas, the extreme values that make a "mod"
 * stage transparent, and the eleven-position knob tables measured on the
 * hardware.
 */
module Mapping {

  /** A (capacitance, inductance) pair in farads and henries. */
  datatype ComponentValues = ComponentValues(c: real, l: real)

  /**
   * High-pass section for angular cutoff wc: C = root2 / (k wc) and
   * L = k / (2 root2 wc). The pair is characterised by its resonance
   * (2 C L wc^2 == 1) and by its impedance ratio (2 root2^2 L == k^2 C).
   */
  function HighPassValues(wc: real, k: real, root2: real): (r: ComponentValues)
    requires wc > 0.0 && k > 0.0 && root2 > 0.0
    ensures r.c > 0.0 && r.l > 0.0
    ensures 2.0 * r.c * r.l * wc * wc == 1.0
    ensures 2.0 * root2 * root2 * r.l == k * k * r.c
  {
    var c := root2 / (k * wc);
    var l := k / (2.0 * root2 * wc);
    assert c * (k * wc) == root2;
    assert l * (2.0 * root2 * wc) == k;
    ComponentValues(c, l)
  }

  /**
   * Low-pass section for angular cutoff wc: C = 2 root2 / (k wc) and
   * L = root2 k / wc, characterised by C L wc^2 == 2 root2^2 and 2 L == k^2 C.
   */
  function LowPassValues(wc: real, k: real, root2: real): (r: ComponentValues)
    requires wc > 0.0 && k > 0.0 && root2 > 0.0
    ensures r.c > 0.0 && r.l > 0.0
    ensures r.c * r.l * wc * wc == 2.0 * root2 * root2
    ensures 2.0 * r.l == k * k * r.c
  {
    var c := (2.0 * root2) / (k * wc);
    var l := (root2 * k) / wc;
    assert c * (k * wc) == 2.0 * root2;
    assert l * wc == root2 * k;
    ComponentValues(c, l)
  }

  /** Dividing a positive number by a larger positive divisor gives less. */
  lemma DivisionDecreases(num: real, d1: real, d2: real)
    requires num > 0.0 && 0.0 < d1 < d2
    ensures num / d2 < num / d1
  {
    assert (num / d2) * d2 == num && (num / d1) * d1 == num;
    assert (num / d2) * d1 < (num / d2) * d2;
  }

  /** A higher high-pass cutoff gives a strictly smaller C and a strictly smaller L. */
  lemma HighPassValuesDecrease(w1: real, w2: real, k: real, root2: real)
    requires 0.0 < w1 < w2 && k > 0.0 && root2 > 0.0
    ensures HighPassValues(w2, k, root2).c < HighPassValues(w1, k, root2).c
    ensures HighPassValues(w2, k, root2).l < HighPassValues(w1, k, root2).l
  {
    DivisionDecreases(root2, k * w1, k * w2);
    DivisionDecreases(k, 2.0 * root2 * w1, 2.0 * root2 * w2);
  }

  /** A higher low-pass cutoff gives a strictly smaller C and a strictly smaller L. */
  lemma LowPassValuesDecrease(w1: real, w2: real, k: real, root2: real)
    requires 0.0 < w1 < w2 && k > 0.0 && root2 > 0.0
    ensures LowPassValues(w2, k, root2).c < LowPassValues(w1, k, root2).c
    ensures LowPassValues(w2, k, root2).l < LowPassValues(w1, k, root2).l
  {
    DivisionDecreases(2.0 * root2, k * w1, k * w2);
    DivisionDecreases(root2 * k, w1, w2);
  }

  /**
   * With root2 the square root of two the high-pass pair has sqrt(L / C) == k / 2
   * and the low-pass pair resonates at C L wc^2 == 4.
   */
  lemma DesignIdentities(wc: real, k: real, root2: real)
    requires wc > 0.0 && k > 0.0 && root2 > 0.0 && root2 * root2 == 2.0
    ensures 4.0 * HighPassValues(wc, k, root2).l == k * k * HighPassValues(wc, k, root2).c
    ensures LowPassValues(wc, k, root2).c * LowPassValues(wc, k, root2).l * wc * wc == 4.0
  {
    var h := HighPassValues(wc, k, root2);
    assert 2.0 * root2 * root2 * h.l == 2.0 * 2.0 * h.l;
    var p := LowPassValues(wc, k, root2);
    assert p.c * p.l * wc * wc == 2.0 * (root2 * root2);
  }

  /** The angular cutoff a disabled high-pass mod stage is pinned to. */
  const HighPassBypassOmega: real := 1e-8

  /** The angular cutoff a disabled low-pass mod stage is pinned to. */
  const LowPassBypassOmega: real := 1e8

  /**
   * The pinned values are extreme: a disabled high-pass mod stage gets a
   * larger C and L than the formula gives for any cutoff above 1e-8 rad/s,
   * and a disabled low-pass mod stage a smaller C and L than for any cutoff
   * below 1e8 rad/s.
   */
  lemma BypassValuesAreExtreme(wc: real, k: real, root2: real)
    requires HighPassBypassOmega < wc < LowPassBypassOmega && k > 0.0 && root2 > 0.0
    ensures HighPassValues(wc, k, root2).c < HighPassValues(HighPassBypassOmega, k, root2).c
    ensures HighPassValues(wc, k, root2).l < HighPassValues(HighPassBypassOmega, k, root2).l
    ensures LowPassValues(LowPassBypassOmega, k, root2).c < LowPassValues(wc, k, root2).c
    ensures LowPassValues(LowPassBypassOmega, k, root2).l < LowPassValues(wc, k, root2).l
  {
    HighPassValuesDecrease(HighPassBypassOmega, wc, k, root2);
    LowPassValuesDecrease(wc, LowPassBypassOmega, k, root2);
  }

  /** High-pass knob positions 1 to 11 (index pos - 1). */
  const HPVals: seq<ComponentValues> := [
    ComponentValues(99999.0, 99999.0),
    ComponentValues(1.6e-6, 255.6e-3),
    ComponentValues(1.15e-6, 176.9e-3),
    ComponentValues(0.8e-6, 126.4e-3),
    ComponentValues(0.57e-6, 90.11e-3),
    ComponentValues(0.4e-6, 63.9e-3),
    ComponentValues(0.272e-6, 44.56e-3),
    ComponentValues(0.2e-6, 31.79e-3),
    ComponentValues(0.15e-6, 21.77e-3),
    ComponentValues(0.1e-6, 15.63e-3),
    ComponentValues(0.069e-6, 11.18e-3)
  ]

  /** Low-pass knob positions 1 to 11 (index pos - 1). */
  const LPVals: seq<ComponentValues> := [
    ComponentValues(3.22e-6, 511.1e-3),
    ComponentValues(2.3e-6, 365.2e-3),
    ComponentValues(1.6e-6, 255.6e-3),
    ComponentValues(1.15e-6, 178.6e-3),
    ComponentValues(0.8e-6, 126.4e-3),
    ComponentValues(0.57e-6, 90.02e-3),
    ComponentValues(0.4e-6, 63.54e-3),
    ComponentValues(0.272e-6, 45.08e-3),
    ComponentValues(0.2e-6, 32.13e-3),
    ComponentValues(0.15e-6, 22.38e-3),
    ComponentValues(1e-10, 1e-10)
  ]

  /** Nominal cutoff in Hz of each high-pass position. */
  const HPMap: map<int, ComponentValues> := map[
    0 := ComponentValues(99999.0, 99999.0),
    175 := ComponentValues(1.6e-6, 255.6e-3),
    248 := ComponentValues(1.15e-6, 176.9e-3),
    352 := ComponentValues(0.8e-6, 126.4e-3),
    497 := ComponentValues(0.57e-6, 90.11e-3),
    699 := ComponentValues(0.4e-6, 63.9e-3),
    1002 := ComponentValues(0.272e-6, 44.56e-3),
    1411 := ComponentValues(0.2e-6, 31.79e-3),
    2024 := ComponentValues(0.15e-6, 21.77e-3),
    2847 := ComponentValues(0.1e-6, 15.63e-3),
    3994 := ComponentValues(0.069e-6, 11.18e-3)
  ]

  /** Nominal cutoff in Hz of each low-pass position. */
  const LPMap: map<int, ComponentValues> := map[
    175 := ComponentValues(3.22e-6, 511.1e-3),
    245 := ComponentValues(2.3e-6, 365.2e-3),
    350 := ComponentValues(1.6e-6, 255.6e-3),
    499 := ComponentValues(1.15e-6, 178.6e-3),
    703 := ComponentValues(0.8e-6, 126.4e-3),
    996 := ComponentValues(0.57e-6, 90.02e-3),
    1408 := ComponentValues(0.4e-6, 63.54e-3),
    1989 := ComponentValues(0.272e-6, 45.08e-3),
    2803 := ComponentValues(0.2e-6, 32.13e-3),
    3992 := ComponentValues(0.15e-6, 22.38e-3),
    999999 := ComponentValues(1e-10, 1e-10)
  ]

  /** C and L both strictly decrease along a table. */
  predicate StrictlyDecreasing(t: seq<ComponentValues>)
  {
    forall i, j :: 0 <= i < j < |t| ==> t[j].c < t[i].c && t[j].l < t[i].l
  }

  /**
   * Both tables have eleven entries and, position by position, both C and L
   * strictly decrease: turning a knob up always shrinks the components.
   */
  lemma TablesStrictlyDecrease()
    ensures |HPVals| == 11 && |LPVals| == 11
    ensures StrictlyDecreasing(HPVals)
    ensures StrictlyDecreasing(LPVals)
  {
  }

  /** The nominal cutoffs of the high-pass positions, in table order. */
  const HPCutoffs: seq<int> := [0, 175, 248, 352, 497, 699, 1002, 1411, 2024, 2847, 3994]

  /** The nominal cutoffs of the low-pass positions, in table order. */
  const LPCutoffs: seq<int> := [175, 245, 350, 499, 703, 996, 1408, 1989, 2803, 3992, 999999]

  predicate StrictlyIncreasing(keys: seq<int>)
  {
    forall i, j :: 0 <= i < j < |keys| ==> keys[i] < keys[j]
  }

  /** `m` maps exactly the cutoffs `keys` to the table entries at the same positions. */
  predicate KeyedByPosition(m: map<int, ComponentValues>, keys: seq<int>, t: seq<ComponentValues>)
  {
    && |keys| == |t|
    && (forall i :: 0 <= i < |t| ==> keys[i] in m && m[keys[i]] == t[i])
    && (forall f :: f in m ==> f in keys)
  }

  /** The nominal cutoffs of both tables increase with the knob position. */
  lemma CutoffsIncrease()
    ensures StrictlyIncreasing(HPCutoffs) && StrictlyIncreasing(LPCutoffs)
  {
  }

  /** HP_map holds the high-pass table's pairs, keyed by their nominal cutoffs. */
  lemma HighPassMapFollowsTable()
    ensures KeyedByPosition(HPMap, HPCutoffs, HPVals)
  {
  }

  /** LP_map holds the low-pass table's pairs, keyed by their nominal cutoffs. */
  lemma LowPassMapFollowsTable()
    ensures KeyedByPosition(LPMap, LPCutoffs, LPVals)
  {
  }

  /**
   * A map keyed by position with increasing cutoffs over a strictly
   * decreasing table lists every pair of the table, and a higher nominal
   * cutoff always carries a smaller capacitance and a smaller inductance.
   */
  lemma KeyedMapIsInCutoffOrder(m: map<int, ComponentValues>, keys: seq<int>, t: seq<ComponentValues>)
    requires KeyedByPosition(m, keys, t) && StrictlyIncreasing(keys) && StrictlyDecreasing(t)
    ensures forall f :: f in m ==> m[f] in t
    ensures forall i :: 0 <= i < |t| ==> t[i] in m.Values
    ensures forall f, g :: f in m && g in m && f < g ==> m[g].c < m[f].c && m[g].l < m[f].l
  {
    forall f | f in m ensures m[f] in t {
      var i :| 0 <= i < |keys| && keys[i] == f;
      assert m[f] == t[i];
    }
    forall i | 0 <= i < |t| ensures t[i] in m.Values {
      assert keys[i] in m && m[keys[i]] == t[i];
    }
    forall f, g | f in m && g in m && f < g ensures m[g].c < m[f].c && m[g].l < m[f].l {
      var i :| 0 <= i < |keys| && keys[i] == f;
      var j :| 0 <= j < |keys| && keys[j] == g;
      if j <= i {
        assert false;
      }
      assert m[f] == t[i] && m[g] == t[j];
    }
  }

  /** Both maps follow their tables in cutoff order. */
  lemma MapsInCutoffOrder()
    ensures forall f :: f in HPMap ==> HPMap[f] in HPVals
    ensures forall f, g :: f in HPMap && g in HPMap && f < g ==> HPMap[g].c < HPMap[f].c && HPMap[g].l < HPMap[f].l
    ensures forall f :: f in LPMap ==> LPMap[f] in LPVals
    ensures forall f, g :: f in LPMap && g in LPMap && f < g ==> LPMap[g].c < LPMap[f].c && LPMap[g].l < LPMap[f].l
  {
    TablesStrictlyDecrease();
    CutoffsIncrease();
    HighPassMapFollowsTable();
    LowPassMapFollowsTable();
    KeyedMapIsInCutoffOrder(HPMap, HPCutoffs, HPVals);
    KeyedMapIsInCutoffOrder(LPMap, LPCutoffs, LPVals);
  }

  /** A knob position the tables can serve: 1 to 11. */
  predicate ValidKnobPos(pos: int)
  {
    1 <= pos <= 11
  }

  /** The high-pass pair of a knob position. */
  function HighPassKnobValues(pos: int): (r: ComponentValues)
    requires ValidKnobPos(pos)
    ensures r in HPVals && r.c > 0.0 && r.l > 0.0
  {
    HPVals[pos - 1]
  }

  /** The low-pass pair of a knob position. */
  function LowPassKnobValues(pos: int): (r: ComponentValues)
    requires ValidKnobPos(pos)
    ensures r in LPVals && r.c > 0.0 && r.l > 0.0
  {
    LPVals[pos - 1]
  }

  /** The guard written before the high-pass table lookup. */
  predicate HighPassKnobAssertionAsWritten(pos: int)
  {
    pos <= |HPVals| && pos >= 0
  }

  /** The guard written before the low-pass table lookup. */
  predicate LowPassKnobAssertion(pos: int)
  {
    pos > 0 && pos <= |LPVals|
  }

  /** The high-pass guard lets position 0 through, whose index pos - 1 is outside the table. */
  lemma HighPassAssertionAdmitsZero()
    ensures HighPassKnobAssertionAsWritten(0)
    ensures !(0 <= 0 - 1 < |HPVals|)
  {
  }

  /**
   * ValidKnobPos admits exactly the positions whose index lies in both
   * tables, and agrees with the low-pass guard.
   */
  lemma ValidKnobPosIsExactlyInTable(pos: int)
    ensures ValidKnobPos(pos) <==> 0 <= pos - 1 < |HPVals|
    ensures ValidKnobPos(pos) <==> 0 <= pos - 1 < |LPVals|
    ensures ValidKnobPos(pos) <==> LowPassKnobAssertion(pos)
    ensures ValidKnobPos(pos) ==> HighPassKnobAssertionAsWritten(pos)
  {
  }
}
