/**
 Canonical gate keys and gate-count mappings.

 A `Key` stands for a compressed resource representation: the identity of a
 gate family together with the structural parameters that change its
 decomposition (never a rotation angle). Two keys are equal exactly when
 their constructors and all their fields are equal, which is the value
 equality a resource-count dictionary relies on.

 The wrapper constructors `Adjoint` and `Controlled`, and the parametrised
 `MultiRZ`, are modelled only as key shapes: their own decomposition rules
 are not part of this model.
 */
module Gates {

  /** Gate families whose canonical key carries no structural parameter. */
  datatype Kind =
    | Hadamard | S | T | X | Z | CNOT
    | RX | RY | RZ | CRY
    | ControlledPhaseShift | PhaseShift | GlobalPhase
    // the quantum-chemistry families
    | SingleExcitation | SingleExcitationMinus | SingleExcitationPlus
    | DoubleExcitation | DoubleExcitationMinus | DoubleExcitationPlus
    | OrbitalRotation | FermionicSWAP

  /** A canonical (compressed) operator key. */
  datatype Key =
    | Plain(kind: Kind)                       // a family with an empty parameter mapping
    | MultiRZ(numWires: nat)                  // the multi-qubit Z rotation over `numWires` wires
    | Adjoint(base: Key)                      // the adjoint of `base`
    | Controlled(base: Key, numCtrlWires: nat, numCtrlValues: nat, numWorkWires: nat)

  /** A gate-count mapping: canonical key to multiplicity. */
  type Counts = map<Key, nat>

  /** The multiplicity of `k` in `c`, zero when `k` is absent. */
  function Count(c: Counts, k: Key): nat
  {
    if k in c then c[k] else 0
  }

  /** Every entry of `c` has a positive multiplicity. */
  predicate Positive(c: Counts)
  {
    forall k :: k in c ==> c[k] > 0
  }

  /** The mapping for `n` copies of everything in `c`. */
  function Scale(c: Counts, n: nat): (r: Counts)
    ensures r.Keys == c.Keys
    ensures forall k :: Count(r, k) == n * Count(c, k)
  {
    map k | k in c :: n * c[k]
  }

  /**
   The mapping for everything in `a` together with everything in `b`:
   a key present in both becomes one entry holding the sum.
   */
  function Merge(a: Counts, b: Counts): (r: Counts)
    ensures r.Keys == a.Keys + b.Keys
    ensures forall k :: Count(r, k) == Count(a, k) + Count(b, k)
  {
    map k | k in a.Keys + b.Keys :: Count(a, k) + Count(b, k)
  }

  /** Two mappings with the same multiplicity for every key are the same mapping. */
  lemma CountExtensional(a: Counts, b: Counts)
    requires a.Keys == b.Keys
    requires forall k :: Count(a, k) == Count(b, k)
    ensures a == b
  {
    forall k | k in a ensures a[k] == b[k] {
      assert Count(a, k) == Count(b, k);
    }
  }

  lemma MergeCommutes(a: Counts, b: Counts)
    ensures Merge(a, b) == Merge(b, a)
  {
    CountExtensional(Merge(a, b), Merge(b, a));
  }

  lemma MergeAssociates(a: Counts, b: Counts, c: Counts)
    ensures Merge(Merge(a, b), c) == Merge(a, Merge(b, c))
  {
    CountExtensional(Merge(Merge(a, b), c), Merge(a, Merge(b, c)));
  }

  /** Merging a mapping with itself doubles every multiplicity and adds no key. */
  lemma MergeSelfDoubles(c: Counts)
    ensures Merge(c, c) == Scale(c, 2)
  {
    CountExtensional(Merge(c, c), Scale(c, 2));
  }

  /** Scaling distributes over merging. */
  lemma ScaleMerge(a: Counts, b: Counts, n: nat)
    ensures Scale(Merge(a, b), n) == Merge(Scale(a, n), Scale(b, n))
  {
    forall k ensures Count(Scale(Merge(a, b), n), k) == Count(Merge(Scale(a, n), Scale(b, n)), k) {
      calc {
        Count(Scale(Merge(a, b), n), k);
        n * (Count(a, k) + Count(b, k));
        n * Count(a, k) + n * Count(b, k);
      }
    }
    CountExtensional(Scale(Merge(a, b), n), Merge(Scale(a, n), Scale(b, n)));
  }

  /** Positive multiplicities stay positive under merging and under a positive scale. */
  lemma PositivePreserved(a: Counts, b: Counts, n: nat)
    requires Positive(a) && Positive(b) && n > 0
    ensures Positive(Merge(a, b)) && Positive(Scale(a, n))
  {
    forall k | k in Scale(a, n) ensures Scale(a, n)[k] > 0 {
      assert Count(Scale(a, n), k) == n * Count(a, k);
    }
  }

  /**
   Replace the key `p` of `c` by `rule`, scaled by the multiplicity of `p`;
   a mapping without `p` is left as it is.
   */
  function Replace(c: Counts, p: Key, rule: Counts): (r: Counts)
    requires p !in rule
    ensures p !in r
    ensures forall k :: k != p ==> Count(r, k) == Count(c, k) + Count(c, p) * Count(rule, k)
  {
    if p !in c then c
    else
      var rest := c - {p};
      assert forall k :: k != p ==> Count(rest, k) == Count(c, k);
      Merge(rest, Scale(rule, c[p]))
  }

  /** A replacement keeps the other keys and adds exactly the keys of the rule. */
  lemma ReplaceKeys(c: Counts, p: Key, rule: Counts)
    requires p !in rule
    ensures p in c ==> Replace(c, p, rule).Keys == (c.Keys - {p}) + rule.Keys
    ensures p !in c ==> Replace(c, p, rule) == c
  {
  }

  /** Replacing within positive mappings adds no zero entry. */
  lemma ReplacePositive(c: Counts, p: Key, rule: Counts)
    requires p !in rule
    requires Positive(c) && Positive(rule)
    ensures Positive(Replace(c, p, rule))
  {
    if p in c {
      PositivePreserved(c - {p}, rule, c[p]);
    }
  }
}
