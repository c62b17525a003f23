/**
 How the quantum-chemistry rules refer to one another.

 A rule refers to a family when one of its child keys is that family's key,
 possibly inside an `Adjoint` or `Controlled` wrapper. The references form
 an acyclic graph: DoubleExcitationMinus and DoubleExcitationPlus refer to
 DoubleExcitation, OrbitalRotation refers to FermionicSWAP and
 SingleExcitation, and nothing else refers to a family.

 `Substitute` replaces one family's key in a gate-count mapping by that
 family's rule, scaled by its multiplicity and merged by summing. It is a
 helper of this model for composing the rules, not a model of an
 aggregation routine.
 */
module RuleGraph {
  import opened Gates
  import opened QchemOps

  /** `k` is, or wraps, the key of family `g`. */
  predicate Mentions(k: Key, g: Family)
  {
    match k
    case Plain(kind) => kind == g
    case MultiRZ(_) => false
    case Adjoint(b) => Mentions(b, g)
    case Controlled(b, _, _, _) => Mentions(b, g)
  }

  /** The rule of `f` names family `g` among its children. */
  predicate RefersTo(f: Family, g: Family)
  {
    exists k :: k in Rule(f) && Mentions(k, g)
  }

  /** The edges of the reference graph, listed explicitly. */
  const Edges: set<(Family, Family)> :=
    {(DoubleExcitationMinus, DoubleExcitation),
     (DoubleExcitationPlus, DoubleExcitation),
     (OrbitalRotation, FermionicSWAP),
     (OrbitalRotation, SingleExcitation)}

  /** A rank that every reference strictly lowers. */
  function Rank(f: Family): nat
  {
    if f in {DoubleExcitationMinus, DoubleExcitationPlus, OrbitalRotation} then 1 else 0
  }

  /** The references of the rules are exactly the listed edges. */
  lemma RefersToIsEdges(f: Family, g: Family)
    ensures RefersTo(f, g) <==> (f, g) in Edges
  {
    if (f, g) in Edges {
      assert ResourceRep(g) in Rule(f) && Mentions(ResourceRep(g), g);
    }
  }

  /** Every reference goes to a family of strictly lower rank. */
  lemma RefersToLowersRank(f: Family, g: Family)
    requires RefersTo(f, g)
    ensures Rank(g) < Rank(f)
  {
    RefersToIsEdges(f, g);
  }

  /** A chain of rule references, each family referring to the next. */
  predicate IsPath(p: seq<Family>)
  {
    forall i :: 0 < i < |p| ==> RefersTo(p[i - 1], p[i])
  }

  /**
   The reference graph is acyclic: a chain of references has at most one
   edge, and that edge never leads from a family back to itself.
   */
  lemma NoCycle(p: seq<Family>)
    requires IsPath(p) && |p| >= 2
    ensures |p| == 2
    ensures p[0] != p[1]
  {
    RefersToLowersRank(p[0], p[1]);
    if |p| > 2 {
      RefersToLowersRank(p[1], p[2]);
      assert false;
    }
  }

  /** Replace the key of `f` in `c` by `f`'s rule, once per occurrence. */
  function Substitute(c: Counts, f: Family): Counts
  {
    Replace(c, ResourceRep(f), Rule(f))
  }

  /** Keys that do not wrap any quantum-chemistry family. */
  predicate Terminal(k: Key)
  {
    forall g: Family :: !Mentions(k, g)
  }

  /**
   The rules whose family has rank 0 name only terminal keys: SingleExcitation,
   its two sign variants, DoubleExcitation and FermionicSWAP.
   */
  lemma LeafRulesTerminal(f: Family)
    requires Rank(f) == 0
    ensures forall k :: k in Rule(f) ==> Terminal(k)
  {
    forall k, g: Family | k in Rule(f) ensures !Mentions(k, g) {
      if Mentions(k, g) {
        assert RefersTo(f, g);
        RefersToLowersRank(f, g);
      }
    }
  }

  /** Keys that name a family only unwrapped, as the children of every rule do. */
  predicate Shallow(c: Counts)
  {
    forall k :: k in c ==> k.Plain? || Terminal(k)
  }

  /** No family of `done` has its key in `c`. */
  predicate Cleared(c: Counts, done: set<Family>)
  {
    forall g :: g in done ==> ResourceRep(g) !in c
  }

  /** Every rule names families only unwrapped. */
  lemma RulesShallow(f: Family)
    ensures Shallow(Rule(f))
  {
  }

  /** A rule names the key of `g` only if it refers to `g`. */
  lemma NameIsReference(f: Family, g: Family)
    requires ResourceRep(g) in Rule(f)
    ensures RefersTo(f, g)
  {
    assert Mentions(ResourceRep(g), g);
  }

  /** Substituting the rules of `order` into `c`, first to last. */
  function SubstituteAll(c: Counts, order: seq<Family>): Counts
    decreases |order|
  {
    if order == [] then c else SubstituteAll(Substitute(c, order[0]), order[1..])
  }

  /** Each family precedes every family its rule refers to. */
  predicate Topological(order: seq<Family>)
  {
    forall i, j :: 0 <= i < j < |order| ==> !RefersTo(order[j], order[i])
  }

  /** An order in which the rule references only point forward. */
  const Order: seq<Family> :=
    [OrbitalRotation, DoubleExcitationMinus, DoubleExcitationPlus, FermionicSWAP,
     SingleExcitation, SingleExcitationMinus, SingleExcitationPlus, DoubleExcitation]

  lemma OrderTopological()
    ensures Topological(Order)
    ensures forall f: Family :: f in Order
  {
    forall i, j | 0 <= i < j < |Order| ensures !RefersTo(Order[j], Order[i]) {
      RefersToIsEdges(Order[j], Order[i]);
    }
  }

  /**
   Substituting along a topological order clears every family of the order
   and keeps cleared the families already done, provided none of the
   remaining rules refers to them.
   */
  lemma {:induction false} SubstituteAllClears(c: Counts, order: seq<Family>, done: set<Family>)
    requires Shallow(c) && Cleared(c, done)
    requires Topological(order)
    requires forall i, g :: 0 <= i < |order| && g in done ==> !RefersTo(order[i], g)
    ensures Shallow(SubstituteAll(c, order)) && Cleared(SubstituteAll(c, order), done)
    ensures forall i :: 0 <= i < |order| ==> ResourceRep(order[i]) !in SubstituteAll(c, order)
    decreases |order|
  {
    if order != [] {
      var f := order[0];
      var c' := Substitute(c, f);
      RulesShallow(f);
      forall g | g in done + {f} ensures ResourceRep(g) !in c' {
        if g != f && ResourceRep(g) in Rule(f) {
          NameIsReference(f, g);
        }
      }
      var rest := order[1..];
      forall i, g | 0 <= i < |rest| && g in done + {f} ensures !RefersTo(rest[i], g) {
        assert rest[i] == order[i + 1];
      }
      SubstituteAllClears(c', rest, done + {f});
      forall i | 0 < i < |order| ensures ResourceRep(order[i]) !in SubstituteAll(c, order) {
        assert order[i] == rest[i - 1];
      }
    }
  }

  /**
   Substituting every rule along an order in which references point
   forward (such as `Order`) leaves only terminal keys: the rule references
   cannot send an expansion around a cycle.
   */
  lemma ExpansionTerminates(c: Counts, order: seq<Family>)
    requires Shallow(c)
    requires Topological(order) && forall f: Family :: f in order
    ensures forall k :: k in SubstituteAll(c, order) ==> Terminal(k)
  {
    SubstituteAllClears(c, order, {});
    var r := SubstituteAll(c, order);
    forall g: Family ensures ResourceRep(g) !in r {
      assert g in order;
      var i :| 0 <= i < |order| && order[i] == g;
    }
    forall k, g: Family | k in r && k.Plain? ensures !Mentions(k, g) {
      assert ResourceRep(g) !in r;
    }
  }

  /** The sign variants of both excitations decompose identically. */
  lemma SignVariantsAgree()
    ensures Rule(SingleExcitationMinus) == Rule(SingleExcitationPlus)
    ensures Rule(DoubleExcitationMinus) == Rule(DoubleExcitationPlus)
    ensures Rule(SingleExcitationMinus) != Rule(DoubleExcitationMinus)
  {
    assert XKey in Rule(SingleExcitationMinus);
  }

  /** In the FermionicSWAP rule the only child with a structural parameter is MultiRZ over two wires. */
  lemma FermionicSWAPOnlyParametrisedChild()
    ensures forall k :: k in Rule(FermionicSWAP) ==> k.Plain? || k == MultiRZ(2)
    ensures MultiRZ(2) in Rule(FermionicSWAP)
  {
  }
}
