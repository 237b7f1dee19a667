/**
 * The leaves and the fixed adaptor tree of the RCA MK-II sound-effects
 * filter's wave digital network.
 *
 * A reactive element (capacitor or inductor) is represented by its configured
 * value, the sample rate it was prepared with, and its integrator memory `z`.
 * The scattering law of the elements and adaptors (port resistances, wave
 * reflection) belongs to the WDF library and is not modelled here.
 */
module Elements {

  /** One capacitor or inductor of the ladder. */
  datatype Reactive = Reactive(value: real, sampleRate: real, z: real)

  /** Setting a capacitance or inductance: a no-op when the value is unchanged. */
  function WithValue(e: Reactive, x: real): (r: Reactive)
    ensures r.value == x
    ensures r.sampleRate == e.sampleRate && r.z == e.z
  {
    if x == e.value then e else e.(value := x)
  }

  /** `prepare(fs)` of one element: only the sample rate is changed. */
  function Prepared(e: Reactive, fs: real): Reactive
  {
    e.(sampleRate := fs)
  }

  /** `reset()` of one element: the integrator memory is cleared. */
  function Cleared(e: Reactive): Reactive
  {
    e.(z := 0.0)
  }

  /** The fourteen one-port leaves of the circuit. */
  datatype Port =
    | Rin
    | CHPm1 | LHPm | CHPm2
    | CHP1 | LHP1 | CHP2
    | LLP1 | CLP1 | LLP2
    | LLPm1 | CLPm1 | LLPm2
    | Rt

  /** A node of the adaptor tree: a leaf, or a series or parallel adaptor of two children. */
  datatype Node =
    | Leaf(port: Port)
    | Series(left: Node, right: Node)
    | Parallel(left: Node, right: Node)

  /**
   * The network the ideal voltage source drives (S0 in the source); it is
   * built once and never reconfigured.
   */
  const Topology: Node :=
    Series(Leaf(Rin),                                      // S0
      Series(Leaf(CHPm1),                                  // S1
        Parallel(Leaf(LHPm),                               // P1
          Series(Leaf(CHPm2),                              // S2
            Series(Leaf(CHP1),                             // S3
              Parallel(Leaf(LHP1),                         // P2
                Series(Leaf(CHP2),                         // S4
                  Series(Leaf(LLP1),                       // S5
                    Parallel(Leaf(CLP1),                   // P3
                      Series(Leaf(LLP2),                   // S6
                        Series(Leaf(LLPm1),                // S7
                          Parallel(Leaf(CLPm1),            // P4
                            Series(Leaf(LLPm2), Leaf(Rt))) // S8
                        )))))))))))

  /** The leaves of a tree, left to right. */
  function Leaves(n: Node): seq<Port>
  {
    match n
    case Leaf(p) => [p]
    case Series(a, b) => Leaves(a) + Leaves(b)
    case Parallel(a, b) => Leaves(a) + Leaves(b)
  }

  function SeriesCount(n: Node): nat
  {
    match n
    case Leaf(_) => 0
    case Series(a, b) => 1 + SeriesCount(a) + SeriesCount(b)
    case Parallel(a, b) => SeriesCount(a) + SeriesCount(b)
  }

  function ParallelCount(n: Node): nat
  {
    match n
    case Leaf(_) => 0
    case Series(a, b) => ParallelCount(a) + ParallelCount(b)
    case Parallel(a, b) => 1 + ParallelCount(a) + ParallelCount(b)
  }

  /** Every adaptor has a leaf as its first child: the tree is a ladder. */
  predicate IsLadder(n: Node)
  {
    match n
    case Leaf(_) => true
    case Series(a, b) => a.Leaf? && IsLadder(b)
    case Parallel(a, b) => a.Leaf? && IsLadder(b)
  }

  /** The leaves of the tree in order, from the source side to the output. */
  const LadderOrder: seq<Port> :=
    [Rin, CHPm1, LHPm, CHPm2, CHP1, LHP1, CHP2, LLP1, CLP1, LLP2, LLPm1, CLPm1, LLPm2, Rt]

  /** Read from the source resistor to the output resistor, the tree's leaves are LadderOrder. */
  lemma TopologyLeaves()
    ensures Leaves(Topology) == LadderOrder
  {
  }

  /** The tree is a ladder of nine series and four parallel adaptors. */
  lemma TopologyShape()
    ensures SeriesCount(Topology) == 9 && ParallelCount(Topology) == 4
    ensures IsLadder(Topology)
  {
  }

  /** The fourteen entries of LadderOrder are pairwise distinct. */
  lemma LadderOrderDistinct()
    ensures |LadderOrder| == 14
    ensures forall i, j :: 0 <= i < j < |LadderOrder| ==> LadderOrder[i] != LadderOrder[j]
  {
  }

  /** Every port occurs in LadderOrder. */
  lemma LadderOrderComplete()
    ensures forall p: Port :: p in LadderOrder
  {
    forall p: Port ensures p in LadderOrder {
      match p
      case Rin => assert LadderOrder[0] == p;
      case CHPm1 => assert LadderOrder[1] == p;
      case LHPm => assert LadderOrder[2] == p;
      case CHPm2 => assert LadderOrder[3] == p;
      case CHP1 => assert LadderOrder[4] == p;
      case LHP1 => assert LadderOrder[5] == p;
      case CHP2 => assert LadderOrder[6] == p;
      case LLP1 => assert LadderOrder[7] == p;
      case CLP1 => assert LadderOrder[8] == p;
      case LLP2 => assert LadderOrder[9] == p;
      case LLPm1 => assert LadderOrder[10] == p;
      case CLPm1 => assert LadderOrder[11] == p;
      case LLPm2 => assert LadderOrder[12] == p;
      case Rt => assert LadderOrder[13] == p;
    }
  }

  /**
   * Each adaptor owns its children exclusively: every one of the fourteen
   * elements occurs in the tree exactly once.
   */
  lemma TopologyOwnsEachPortOnce()
    ensures |Leaves(Topology)| == 14
    ensures forall i, j :: 0 <= i < j < |Leaves(Topology)| ==> Leaves(Topology)[i] != Leaves(Topology)[j]
    ensures forall p: Port :: p in Leaves(Topology)
  {
    TopologyLeaves();
    LadderOrderDistinct();
    LadderOrderComplete();
  }
}
