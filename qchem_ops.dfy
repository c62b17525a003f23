/**
 Resource operators for the quantum-chemistry gate families.

 Each of the eight families supplies a structural parameter mapping for an
 instance (always empty), a canonical key for the family (its kind with an
 empty parameter mapping) and a one-level decomposition into a gate-count
 mapping. `Rule` is the registry from family to that mapping; each
 `...Decomp` method builds its family's mapping the way the source does, by
 successive keyed assignments into an empty dictionary, and is proved to
 yield the registry entry.
 */
module QchemOps {
  import opened Gates

  predicate IsQchem(k: Kind)
  {
    k in {SingleExcitation, SingleExcitationMinus, SingleExcitationPlus,
          DoubleExcitation, DoubleExcitationMinus, DoubleExcitationPlus,
          OrbitalRotation, FermionicSWAP}
  }

  /** The eight quantum-chemistry resource operator classes. */
  type Family = k: Kind | IsQchem(k) witness SingleExcitation

  /** A structural parameter mapping, from parameter name to value. */
  type Params = map<string, nat>

  /**
   A live gate instance: its family, its rotation angle and its wires. The
   angle and wires belong to the underlying gate class; resource estimation
   reads neither.
   */
  datatype Op = Op(family: Family, phi: real, wires: seq<int>)

  /** The `resource_params` property of an instance: no structural parameter. */
  function ResourceParams(op: Op): (p: Params)
    ensures p.Keys == {}
  {
    map[]
  }

  /** The `resource_rep` class method: the family with an empty parameter mapping. */
  function ResourceRep(f: Family): Key
  {
    Plain(f)
  }

  /**
   The canonical key of an instance: its class's `resource_rep` called with
   the instance's `resource_params` (which are empty, matching the method's
   empty argument list).
   */
  function InstanceKey(op: Op): Key
  {
    ResourceRep(op.family)
  }

  // Canonical keys of the children named by the rules.
  const HKey: Key := Plain(Hadamard)
  const SKey: Key := Plain(S)
  const TKey: Key := Plain(T)
  const XKey: Key := Plain(X)
  const CNOTKey: Key := Plain(CNOT)
  const RXKey: Key := Plain(RX)
  const RYKey: Key := Plain(RY)
  const RZKey: Key := Plain(RZ)
  const CRYKey: Key := Plain(CRY)
  const CtrlPhaseShiftKey: Key := Plain(ControlledPhaseShift)
  const GlobalPhaseKey: Key := Plain(GlobalPhase)
  const TDagKey: Key := Adjoint(Plain(T))
  const SDagKey: Key := Adjoint(Plain(S))
  const MultiRZ2Key: Key := MultiRZ(2)
  const CtrlZKey: Key := Controlled(Plain(Z), 3, 1, 0)
  const CtrlPhaseKey: Key := Controlled(Plain(PhaseShift), 3, 1, 0)

  /**
   The registry of one-level decomposition rules. Every multiplicity is
   positive and no rule names its own family as a child.
   */
  function Rule(f: Family): (r: Counts)
    ensures Positive(r)
    ensures ResourceRep(f) !in r
  {
    match f
    case SingleExcitation =>
      map[TDagKey := 2, HKey := 4, SKey := 2, SDagKey := 2,
          CNOTKey := 2, RZKey := 1, RYKey := 1, TKey := 2]
    case SingleExcitationMinus =>
      map[XKey := 4, CtrlPhaseShiftKey := 2, CNOTKey := 2, CRYKey := 1]
    case SingleExcitationPlus =>
      map[XKey := 4, CtrlPhaseShiftKey := 2, CNOTKey := 2, CRYKey := 1]
    case DoubleExcitation =>
      map[HKey := 6, RYKey := 8, CNOTKey := 14]
    case DoubleExcitationMinus =>
      map[GlobalPhaseKey := 1, ResourceRep(DoubleExcitation) := 1,
          CtrlZKey := 2, CtrlPhaseKey := 2]
    case DoubleExcitationPlus =>
      map[GlobalPhaseKey := 1, ResourceRep(DoubleExcitation) := 1,
          CtrlZKey := 2, CtrlPhaseKey := 2]
    case OrbitalRotation =>
      map[ResourceRep(FermionicSWAP) := 2, ResourceRep(SingleExcitation) := 2]
    case FermionicSWAP =>
      map[HKey := 4, MultiRZ2Key := 2, RXKey := 4, RZKey := 2, GlobalPhaseKey := 1]
  }

  // The `_resource_decomp` static methods. `kwargs` stands for the keyword
  // arguments each of them accepts and ignores.

  method SingleExcitationDecomp(kwargs: map<string, int>) returns (gateTypes: Counts)
    ensures gateTypes == Rule(SingleExcitation)
    ensures |gateTypes| == 8
  {
    var tDag := Adjoint(Plain(T));
    var h := Plain(Hadamard);
    var s := Plain(S);
    var sDag := Adjoint(Plain(S));
    var cnot := Plain(CNOT);
    var rz := Plain(RZ);
    var ry := Plain(RY);
    var t := Plain(T);

    gateTypes := map[];
    gateTypes := gateTypes[tDag := 2];
    gateTypes := gateTypes[h := 4];
    gateTypes := gateTypes[s := 2];
    gateTypes := gateTypes[sDag := 2];
    gateTypes := gateTypes[cnot := 2];
    gateTypes := gateTypes[rz := 1];
    gateTypes := gateTypes[ry := 1];
    gateTypes := gateTypes[t := 2];
  }

  method SingleExcitationMinusDecomp(kwargs: map<string, int>) returns (gateTypes: Counts)
    ensures gateTypes == Rule(SingleExcitationMinus)
    ensures |gateTypes| == 4
  {
    var x := Plain(X);
    var ctrlPhaseShift := Plain(ControlledPhaseShift);
    var cnot := Plain(CNOT);
    var cry := Plain(CRY);

    gateTypes := map[];
    gateTypes := gateTypes[x := 4];
    gateTypes := gateTypes[ctrlPhaseShift := 2];
    gateTypes := gateTypes[cnot := 2];
    gateTypes := gateTypes[cry := 1];
  }

  method SingleExcitationPlusDecomp(kwargs: map<string, int>) returns (gateTypes: Counts)
    ensures gateTypes == Rule(SingleExcitationPlus)
    ensures |gateTypes| == 4
  {
    var x := Plain(X);
    var ctrlPhaseShift := Plain(ControlledPhaseShift);
    var cnot := Plain(CNOT);
    var cry := Plain(CRY);

    gateTypes := map[];
    gateTypes := gateTypes[x := 4];
    gateTypes := gateTypes[ctrlPhaseShift := 2];
    gateTypes := gateTypes[cnot := 2];
    gateTypes := gateTypes[cry := 1];
  }

  method DoubleExcitationDecomp(kwargs: map<string, int>) returns (gateTypes: Counts)
    ensures gateTypes == Rule(DoubleExcitation)
    ensures |gateTypes| == 3
  {
    var h := Plain(Hadamard);
    var ry := Plain(RY);
    var cnot := Plain(CNOT);

    gateTypes := map[];
    gateTypes := gateTypes[h := 6];
    gateTypes := gateTypes[ry := 8];
    gateTypes := gateTypes[cnot := 14];
  }

  method DoubleExcitationMinusDecomp(kwargs: map<string, int>) returns (gateTypes: Counts)
    ensures gateTypes == Rule(DoubleExcitationMinus)
    ensures |gateTypes| == 4
  {
    var phase := Plain(GlobalPhase);
    var double := ResourceRep(DoubleExcitation);
    var ctrlZ := Controlled(Plain(Z), 3, 1, 0);
    var ctrlPhase := Controlled(Plain(PhaseShift), 3, 1, 0);

    gateTypes := map[];
    gateTypes := gateTypes[phase := 1];
    gateTypes := gateTypes[double := 1];
    gateTypes := gateTypes[ctrlZ := 2];
    gateTypes := gateTypes[ctrlPhase := 2];
  }

  method DoubleExcitationPlusDecomp(kwargs: map<string, int>) returns (gateTypes: Counts)
    ensures gateTypes == Rule(DoubleExcitationPlus)
    ensures |gateTypes| == 4
  {
    var phase := Plain(GlobalPhase);
    var double := ResourceRep(DoubleExcitation);
    var ctrlZ := Controlled(Plain(Z), 3, 1, 0);
    var ctrlPhase := Controlled(Plain(PhaseShift), 3, 1, 0);

    gateTypes := map[];
    gateTypes := gateTypes[phase := 1];
    gateTypes := gateTypes[double := 1];
    gateTypes := gateTypes[ctrlZ := 2];
    gateTypes := gateTypes[ctrlPhase := 2];
  }

  method OrbitalRotationDecomp(kwargs: map<string, int>) returns (gateTypes: Counts)
    ensures gateTypes == Rule(OrbitalRotation)
    ensures |gateTypes| == 2
  {
    var fermionicSwap := ResourceRep(FermionicSWAP);
    var singleExcitation := ResourceRep(SingleExcitation);

    gateTypes := map[];
    gateTypes := gateTypes[fermionicSwap := 2];
    gateTypes := gateTypes[singleExcitation := 2];
  }

  method FermionicSWAPDecomp(kwargs: map<string, int>) returns (gateTypes: Counts)
    ensures gateTypes == Rule(FermionicSWAP)
    ensures |gateTypes| == 5
  {
    var h := Plain(Hadamard);
    var multiRz := MultiRZ(2);
    var rx := Plain(RX);
    var rz := Plain(RZ);
    var phase := Plain(GlobalPhase);

    gateTypes := map[];
    gateTypes := gateTypes[h := 4];
    gateTypes := gateTypes[multiRz := 2];
    gateTypes := gateTypes[rx := 4];
    gateTypes := gateTypes[rz := 2];
    gateTypes := gateTypes[phase := 1];
  }

  /**
   Instances of one family get equal keys whatever their angles and wires;
   instances of different families get different keys.
   */
  lemma InstanceKeyIgnoresAngle(a: Op, b: Op)
    ensures InstanceKey(a) == InstanceKey(b) <==> a.family == b.family
  {
  }

  /** Keys of two classes differ, and differ only by kind. */
  lemma ResourceRepInjective(f: Family, g: Family)
    ensures ResourceRep(f) == ResourceRep(g) <==> f == g
  {
  }
}
