# Resource decompositions of the quantum-chemistry gates

This project models the resource operators for PennyLane's quantum-chemistry
gate families: SingleExcitation, SingleExcitationMinus, SingleExcitationPlus,
DoubleExcitation, DoubleExcitationMinus, DoubleExcitationPlus, OrbitalRotation
and FermionicSWAP. Each family has three parts:

- `resource_params`: the structural parameters of an instance. This is always empty.
- `resource_rep`: the family's canonical (compressed) key. This is the family with an empty parameter mapping.
- `_resource_decomp`: the family's one-level decomposition. It is a dictionary from child keys to multiplicities. The source builds it by successive keyed assignments into an empty dictionary.

Files:

- `gates.dfy` (module `Gates`) holds the key datatype and the gate-count mappings.
  - `Key` has four constructors: `Plain(kind)` for any family whose parameter mapping is empty, `MultiRZ(numWires)`, `Adjoint(base)` and `Controlled(base, numCtrlWires, numCtrlValues, numWorkWires)`.
  - `Counts` is `map<Key, nat>`.
  - The module also has helpers for composing mappings. `Scale` makes n copies. `Merge` sums multiplicities, so a key shared by two mappings becomes a single entry. `Replace` puts a scaled rule in place of one key. Lemmas cover commutativity, associativity, doubling, distributivity and positivity.
- `qchem_ops.dfy` (module `QchemOps`) holds the families.
  - `Family` is the subset of kinds that are quantum-chemistry families.
  - `Op` is a live instance: family, angle and wires.
  - `ResourceParams` and `ResourceRep` model the two pure members.
  - `Rule` is the registry from each family to its decomposition.
  - There is one method per `_resource_decomp`. It is written as the same straight-line sequence of dictionary assignments as the source, and is proved to build exactly the registry entry.
- `rule_graph.dfy` (module `RuleGraph`) covers how the rules refer to one another. A rule refers to a family when one of its child keys names that family, possibly inside a wrapper. The module proves four things:
  - the reference graph is exactly DoubleExcitation± → DoubleExcitation, and OrbitalRotation → FermionicSWAP and SingleExcitation;
  - the graph is acyclic;
  - substituting the rules in dependency order leaves only terminal keys;
  - a few facts about particular rules.

## Model

| member | source | states |
|---|---|---|
| QchemOps.SingleExcitationDecomp | pennylane/labs/resource_estimation/ops/qubit/qchem_ops.py:34-55 | Whatever the keyword arguments, the result is exactly {Adjoint(T):2, Hadamard:4, S:2, Adjoint(S):2, CNOT:2, RZ:1, RY:1, T:2}. It has eight entries, so Adjoint(T) and T are distinct keys, and so are Adjoint(S) and S. |
| QchemOps.SingleExcitationMinusDecomp | pennylane/labs/resource_estimation/ops/qubit/qchem_ops.py:87-100 | Whatever the keyword arguments, the result is exactly {X:4, ControlledPhaseShift:2, CNOT:2, CRY:1}, with four entries. |
| QchemOps.SingleExcitationPlusDecomp | pennylane/labs/resource_estimation/ops/qubit/qchem_ops.py:132-145 | Whatever the keyword arguments, the result is exactly {X:4, ControlledPhaseShift:2, CNOT:2, CRY:1}, with four entries. |
| QchemOps.DoubleExcitationDecomp | pennylane/labs/resource_estimation/ops/qubit/qchem_ops.py:180-191 | Whatever the keyword arguments, the result is exactly {Hadamard:6, RY:8, CNOT:14}, with three entries. |
| QchemOps.DoubleExcitationMinusDecomp | pennylane/labs/resource_estimation/ops/qubit/qchem_ops.py:216-229 | Whatever the keyword arguments, the result is exactly {GlobalPhase:1, DoubleExcitation:1, Controlled(Z,3,1,0):2, Controlled(PhaseShift,3,1,0):2}. It has four entries: the two controlled keys share their parameters but stay separate. |
| QchemOps.DoubleExcitationPlusDecomp | pennylane/labs/resource_estimation/ops/qubit/qchem_ops.py:253-266 | Gives the same four-entry mapping as the Minus variant, whatever the keyword arguments. |
| QchemOps.OrbitalRotationDecomp | pennylane/labs/resource_estimation/ops/qubit/qchem_ops.py:288-297 | Whatever the keyword arguments, the result is exactly {FermionicSWAP:2, SingleExcitation:2}, with two entries. |
| QchemOps.FermionicSWAPDecomp | pennylane/labs/resource_estimation/ops/qubit/qchem_ops.py:329-344 | Whatever the keyword arguments, the result is exactly {Hadamard:4, MultiRZ(2):2, RX:4, RZ:2, GlobalPhase:1}, with five entries. |
| QchemOps.Rule | pennylane/labs/resource_estimation/ops/qubit/qchem_ops.py:34-344 | Every multiplicity in every rule is positive. No rule lists its own family's key as a child. |
| QchemOps.ResourceParams | pennylane/labs/resource_estimation/ops/qubit/qchem_ops.py:57-59 | The structural parameter mapping of any instance is empty, whatever its angle and wires. |
| QchemOps.InstanceKeyIgnoresAngle | pennylane/labs/resource_estimation/ops/qubit/qchem_ops.py:57-63 | Two instances have equal keys if and only if they belong to the same family, whatever their angles and wires. |
| QchemOps.ResourceRepInjective | pennylane/labs/resource_estimation/ops/qubit/qchem_ops.py:61-63 | Two families' keys are equal if and only if the families are equal. Keys differ only by kind. |
| RuleGraph.SignVariantsAgree | pennylane/labs/resource_estimation/ops/qubit/qchem_ops.py:87-266 | The Minus and Plus rules are equal, both for SingleExcitation and for DoubleExcitation. The single and double rules differ. |
| RuleGraph.FermionicSWAPOnlyParametrisedChild | pennylane/labs/resource_estimation/ops/qubit/qchem_ops.py:330-344 | MultiRZ over two wires is a FermionicSWAP child. Every other child of the rule is a parameter-free key. |
| RuleGraph.RefersToIsEdges | pennylane/labs/resource_estimation/ops/qubit/qchem_ops.py:216-297 | The references between rules are exactly these four edges, and they hold in both directions: DoubleExcitationMinus → DoubleExcitation, DoubleExcitationPlus → DoubleExcitation, OrbitalRotation → FermionicSWAP and OrbitalRotation → SingleExcitation. |
| RuleGraph.RefersToLowersRank | pennylane/labs/resource_estimation/ops/qubit/qchem_ops.py:216-297 | Every reference goes to a family of strictly lower rank. |
| RuleGraph.NoCycle | pennylane/labs/resource_estimation/ops/qubit/qchem_ops.py:216-297 | A chain of references has exactly one edge, and that edge never returns to its start. So the reference graph is acyclic. |
| RuleGraph.LeafRulesTerminal | pennylane/labs/resource_estimation/ops/qubit/qchem_ops.py:34-344 | Five rules name only keys that wrap no quantum-chemistry family: SingleExcitation, its two sign variants, DoubleExcitation and FermionicSWAP. |
| RuleGraph.RulesShallow | pennylane/labs/resource_estimation/ops/qubit/qchem_ops.py:34-344 | A rule may name a family only unwrapped, never inside Adjoint or Controlled. |
| RuleGraph.OrderTopological | pennylane/labs/resource_estimation/ops/qubit/qchem_ops.py:216-297 | The fixed family order lists every family, and each family comes before every family its rule refers to. |
| RuleGraph.SubstituteAllClears | pennylane/labs/resource_estimation/ops/qubit/qchem_ops.py:216-297 | Substituting rules along a topological order removes the key of every family in the order. It does not bring back keys of families already removed. |
| RuleGraph.ExpansionTerminates | pennylane/labs/resource_estimation/ops/qubit/qchem_ops.py:216-297 | Substituting every rule along such an order leaves only terminal keys, starting from any mapping that names families only unwrapped. |

`Gates.Scale`, `Gates.Merge`, `Gates.Replace` and their lemmas are helpers of this
model, used to compose rules. They are not drawn from the source: the
dictionaries there are only built and returned.

## Left out

- Numerics: the matrix and circuit semantics in the docstrings, rotation angles and phases. The rules never read them, and `Op.phi` is carried only to show that keys ignore it.
- Base classes: inheritance from the `qml.*` gate classes (wires, parameters, matrices). These classes are not part of this model.
- External key constructors: `re.CompressedResourceOp`, `re.ResourceAdjoint`, `re.ResourceControlled`, `re.ResourceMultiRZ` and the elementary gates' `resource_rep`. Their source is not part of this model, so they appear only as `Key` constructors. The three integer arguments of the controlled key (3, 1, 0) are kept as three fields. Their names follow the controlled-operation convention, and their meaning is defined outside this model.
- Aggregator: the recursive resource aggregator is not part of this model. `Substitute` and `SubstituteAll` are the model's own composition helpers and do not claim that routine's behaviour. They also do not expand `Adjoint` or `Controlled` keys.
- Expansion totals: the model proves that expansion in dependency order ends in terminal keys. It does not state the resulting numbers, such as the full count of an OrbitalRotation.
- Keyword arguments: `**kwargs` is a `map<string, int>` parameter that no method reads. Their contracts fix the result independently of it.
- Dictionary order: Python dictionaries keep insertion order and a Dafny `map` does not. Only keys and multiplicities are modelled.
- Test file: `tests/devices/default_qubit/test_default_qubit_plxpr.py` covers jaxpr execution, sampling and differentiation on a device, none of which is part of this model.
