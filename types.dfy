// writeTypes: the four primitive type facts, then the type accumulator
// collects every type reachable from the types recorded so far, and the
// type visitor writes the facts of each collected type once. The collected
// types form an unordered set, so the order of the loop is an input here:
// any listing of the set, each type once.
module Types {
  import opened Common
  import opened Llvm
  import opened Refmodes
  import opened Generator
  import opened Listings
  import opened TypeClosure
  import opened TypeVisitor

  /** The primitive types written before any other, whether used or not. */
  function PrimitiveFacts(): seq<Fact> {
    [Fact("primitive_type::id", ["void"]),
     Fact("primitive_type::id", ["label"]),
     Fact("primitive_type::id", ["metadata"]),
     Fact("primitive_type::id", ["x86mmx"])]
  }

  /** The block of facts the visitor writes for one type. */
  function TypeBlock(g: TypeGraph, dl: DataLayout): TypeId -> seq<Fact> {
    (t: TypeId) => TypeFacts(g, dl, t)
  }

  /** writeTypes on the state, for the order in which the collected set is
      walked. Only the sink changes. */
  ghost function WriteTypesSt(g: TypeGraph, dl: DataLayout, s: GenState, order: seq<TypeId>): GenState
    requires Listing(order, Closure(g, s.types))
  {
    s.(facts := s.facts + PrimitiveFacts() + Concat(TypeBlock(g, dl), order))
  }

  // ---------------------------------------------------------------------
  // The writer
  // ---------------------------------------------------------------------

  method WriteTypes(gen: FactGenerator, dl: DataLayout) returns (ghost order: seq<TypeId>)
    requires gen.Valid()
    modifies gen
    ensures gen.Valid() && gen.ctx == old(gen.ctx)
    ensures Listing(order, Closure(gen.graph, old(gen.types)))
    ensures gen.St() == WriteTypesSt(gen.graph, dl, old(gen.St()), order)
  {
    gen.WriteFact("primitive_type::id", ["void"]);
    gen.WriteFact("primitive_type::id", ["label"]);
    gen.WriteFact("primitive_type::id", ["metadata"]);
    gen.WriteFact("primitive_type::id", ["x86mmx"]);
    assert gen.facts == old(gen.facts) + PrimitiveFacts();
    var acc := new TypeAccumulator(gen.graph);
    acc.Accumulate(gen.types);
    assert acc.types == Closure(gen.graph, old(gen.types)) by {
      assert {} + old(gen.types) == old(gen.types);
    }
    order := VisitAll(gen, dl, acc.types);
  }

  /** The loop over the collected types, in the order the set is walked. */
  method VisitAll(gen: FactGenerator, dl: DataLayout, all: set<TypeId>) returns (ghost order: seq<TypeId>)
    requires gen.Valid()
    modifies gen
    ensures gen.Valid() && gen.ctx == old(gen.ctx)
    ensures Listing(order, all)
    ensures gen.St() == old(gen.St()).(facts := old(gen.facts) + Concat(TypeBlock(gen.graph, dl), order))
  {
    var rest := all;
    order := [];
    while rest != {}
      invariant rest <= all
      invariant forall i, j :: 0 <= i < j < |order| ==> order[i] != order[j]
      invariant forall x :: x in order <==> x in all && x !in rest
      invariant gen.Valid() && gen.ctx == old(gen.ctx)
      invariant gen.St() == old(gen.St()).(facts := gen.facts)
      invariant gen.facts == old(gen.facts) + Concat(TypeBlock(gen.graph, dl), order)
      decreases rest
    {
      var t :| t in rest;
      VisitType(gen, dl, t);
      ConcatStep(TypeBlock(gen.graph, dl), old(gen.facts), order, t, TypeFacts(gen.graph, dl, t));
      assert t !in order;
      order := order + [t];
      rest := rest - {t};
    }
  }

  // ---------------------------------------------------------------------
  // Properties
  // ---------------------------------------------------------------------

  /** The four primitive facts come first. */
  lemma PrimitivesFirst(g: TypeGraph, dl: DataLayout, s: GenState, order: seq<TypeId>)
    requires Listing(order, Closure(g, s.types))
    ensures var w := WriteTypesSt(g, dl, s, order).facts;
      |w| >= |s.facts| + 4 && w[|s.facts|..|s.facts| + 4] == PrimitiveFacts()
  {
    var w := WriteTypesSt(g, dl, s, order).facts;
    assert w == s.facts + PrimitiveFacts() + Concat(TypeBlock(g, dl), order);
    assert w[|s.facts|..|s.facts| + 4] == PrimitiveFacts();
  }

  /** Each type of the closure is visited exactly once and no other type is
      visited; the recorded types are among those visited. */
  lemma VisitedOnce(g: TypeGraph, s: GenState, order: seq<TypeId>, t: TypeId)
    requires Listing(order, Closure(g, s.types))
    ensures multiset(order)[t] == if t in Closure(g, s.types) then 1 else 0
    ensures t in s.types ==> multiset(order)[t] == 1
  {
    ListingCount(order, Closure(g, s.types), t);
    ClosureContainsSeeds(g, s.types);
  }

  /** Every fact the visitor writes for a collected type is written. */
  lemma EveryTypeWritten(g: TypeGraph, dl: DataLayout, s: GenState, order: seq<TypeId>, t: TypeId, f: Fact)
    requires Listing(order, Closure(g, s.types))
    requires t in Closure(g, s.types) && f in TypeFacts(g, dl, t)
    ensures f in WriteTypesSt(g, dl, s, order).facts
  {
    var i :| 0 <= i < |order| && order[i] == t;
    ConcatHas(TypeBlock(g, dl), order, f);
  }

  /** The facts written, counted with multiplicity, do not depend on the
      order in which the collected set is walked. */
  lemma OrderIrrelevant(g: TypeGraph, dl: DataLayout, s: GenState, o1: seq<TypeId>, o2: seq<TypeId>)
    requires Listing(o1, Closure(g, s.types)) && Listing(o2, Closure(g, s.types))
    ensures multiset(WriteTypesSt(g, dl, s, o1).facts) == multiset(WriteTypesSt(g, dl, s, o2).facts)
  {
    ListingsAgree(TypeBlock(g, dl), o1, o2, Closure(g, s.types));
  }

  /** Every component, field, return or parameter type named by a written
      type fact is itself one of the collected types, so its own facts are
      written too. */
  lemma ComponentsWritten(g: TypeGraph, dl: DataLayout, s: GenState, order: seq<TypeId>, f: Fact)
    requires Listing(order, Closure(g, s.types))
    requires f in Concat(TypeBlock(g, dl), order) && f.pred in ComponentPreds()
    ensures |f.cols| > 0
    ensures exists c :: c in Closure(g, s.types) && f.cols[|f.cols| - 1] == TypeRefmode(g, c)
  {
    ConcatHas(TypeBlock(g, dl), order, f);
    var i :| 0 <= i < |order| && f in TypeBlock(g, dl)(order[i]);
    var t := order[i];
    var S := SizeFacts(TypeRefmode(g, t), Ty(g, t).sized, dl.allocSize(t), dl.storeSize(t));
    assert f in KindFacts(g, dl, t) by {
      assert f in S + KindFacts(g, dl, t);
      assert f !in S by {
        SizesNotComponents();
      }
    }
    ComponentsNamed(g, dl, t, f);
    var c :| c in Children(g, t) && f.cols[|f.cols| - 1] == TypeRefmode(g, c);
    ClosureClosed(g, s.types);
    assert ChildrenIn(g, t, Closure(g, s.types));
  }

  lemma SizesNotComponents()
    ensures "type::alloc_size" !in ComponentPreds() && "type::store_size" !in ComponentPreds()
  {
  }
}
