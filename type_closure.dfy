// The type accumulator: starting from the types the generator has recorded,
// it collects every type reachable through component edges (array and
// vector elements, the pointee of a non-opaque pointer, the fields of a
// non-opaque struct, the return and parameter types of a function). A type
// joins the set before its components are visited, so a struct that refers
// to itself is visited once and the recursion ends.
module TypeClosure {
  import opened Llvm

  /** The component types the accumulator descends into from `t`. */
  function Children(g: TypeGraph, t: TypeId): seq<TypeId> {
    Components(Ty(g, t).kind)
  }

  predicate ChildrenIn(g: TypeGraph, x: TypeId, s: set<TypeId>) {
    forall c :: c in Children(g, x) ==> c in s
  }

  /** Every member of `s` outside `open` has its children in `s`; `open`
      holds the types whose visit is still in progress. */
  ghost predicate ClosedExcept(g: TypeGraph, s: set<TypeId>, open: set<TypeId>) {
    forall x :: x in s && x !in open ==> ChildrenIn(g, x, s)
  }

  ghost predicate Closed(g: TypeGraph, s: set<TypeId>) {
    ClosedExcept(g, s, {})
  }

  /** The seeds, the types of the graph and their components: a finite set
      that holds the closure. */
  ghost function Universe(g: TypeGraph, seeds: set<TypeId>): set<TypeId> {
    seeds + g.Keys + (set x, c | x in g.Keys && c in Components(g[x].kind) :: c)
  }

  /** The least set that holds the seeds and is closed under the component
      edges: exactly the types reachable from the seeds. */
  ghost function Closure(g: TypeGraph, seeds: set<TypeId>): set<TypeId> {
    set t | t in Universe(g, seeds) && forall c: set<TypeId> :: Closed(g, c) && seeds <= c ==> t in c
  }

  lemma UniverseClosed(g: TypeGraph, seeds: set<TypeId>)
    ensures seeds <= Universe(g, seeds) && Closed(g, Universe(g, seeds))
  {
    var u := Universe(g, seeds);
    forall x | x in u ensures ChildrenIn(g, x, u) {
      forall c | c in Children(g, x) ensures c in u {
        assert x in g.Keys;
      }
    }
  }

  /** The closure holds every seed. */
  lemma ClosureContainsSeeds(g: TypeGraph, seeds: set<TypeId>)
    ensures seeds <= Closure(g, seeds)
  {
  }

  /** The closure is closed: every component of a member is a member. */
  lemma ClosureClosed(g: TypeGraph, seeds: set<TypeId>)
    ensures Closed(g, Closure(g, seeds))
  {
    var cl := Closure(g, seeds);
    UniverseClosed(g, seeds);
    forall x | x in cl ensures ChildrenIn(g, x, cl) {
      forall c | c in Children(g, x) ensures c in cl {
        forall s: set<TypeId> | Closed(g, s) && seeds <= s ensures c in s {
          assert x in s;
          assert ChildrenIn(g, x, s);
        }
        assert x in Universe(g, seeds);
        assert ChildrenIn(g, x, Universe(g, seeds));
      }
    }
  }

  /** The closure lies inside every closed set that holds the seeds. */
  lemma ClosureLeast(g: TypeGraph, seeds: set<TypeId>, s: set<TypeId>)
    requires Closed(g, s) && seeds <= s
    ensures Closure(g, seeds) <= s
  {
  }

  /** A closed superset of the seeds that lies inside every other one is
      the closure. */
  lemma ClosureUnique(g: TypeGraph, seeds: set<TypeId>, s: set<TypeId>)
    requires seeds <= s && Closed(g, s)
    requires forall c: set<TypeId> :: Closed(g, c) && seeds <= c ==> s <= c
    ensures s == Closure(g, seeds)
  {
    UniverseClosed(g, seeds);
    assert s <= Universe(g, seeds);
    ClosureLeast(g, seeds, s);
  }

  lemma SubsetSmaller<T>(a: set<T>, b: set<T>)
    requires a <= b
    ensures |a| <= |b|
    decreases b
  {
    if a != {} {
      var x :| x in a;
      SubsetSmaller(a - {x}, b - {x});
    }
  }

  /** Once types only join the set, fewer types of the graph are unvisited. */
  lemma Fewer(keys: set<TypeId>, before: set<TypeId>, after: set<TypeId>)
    requires before <= after
    ensures |keys - after| <= |keys - before|
  {
    SubsetSmaller(keys - after, keys - before);
  }

  /** Inserting a type of the graph that was unvisited leaves one fewer. */
  lemma OneFewer(keys: set<TypeId>, before: set<TypeId>, t: TypeId)
    requires t in keys && t !in before
    ensures |keys - (before + {t})| < |keys - before|
  {
    assert keys - before == (keys - (before + {t})) + {t};
  }

  /** The accumulator; `types` is its unordered set of collected types. */
  class TypeAccumulator {
    const graph: TypeGraph
    var types: set<TypeId>

    constructor (g: TypeGraph)
      ensures graph == g && types == {}
    {
      graph := g;
      types := {};
    }

    /** accumulate: visit every seed. The seeds come from an unordered set,
        so they are taken in any order. Afterwards the set is the closure of
        what it held and the seeds. */
    method Accumulate(seeds: set<TypeId>)
      requires Closed(graph, types)
      modifies this
      ensures types == Closure(graph, old(types) + seeds)
    {
      ghost var bound := Closure(graph, types + seeds);
      ClosureClosed(graph, types + seeds);
      ClosureContainsSeeds(graph, types + seeds);
      var rest := seeds;
      while rest != {}
        invariant rest <= seeds && old(types) <= types && seeds - rest <= types
        invariant Closed(graph, types) && types <= bound
        decreases rest
      {
        var t :| t in rest;
        VisitType(t, {}, bound);
        rest := rest - {t};
      }
      ClosureLeast(graph, old(types) + seeds, types);
    }

    /** visitType: a type already collected is left alone; otherwise it is
        inserted first and its components are visited after. `open` is the
        chain of visits in progress, whose components may still be missing.
        Any closed `bound` holding `t` and what was collected before holds
        everything collected after. */
    method VisitType(t: TypeId, ghost open: set<TypeId>, ghost bound: set<TypeId>)
      requires ClosedExcept(graph, types, open)
      requires Closed(graph, bound) && types <= bound && t in bound
      modifies this
      ensures old(types) + {t} <= types && types <= bound
      ensures ClosedExcept(graph, types, open)
      decreases |graph.Keys - types|, 0
    {
      if t in types {
        return;
      }
      types := types + {t};
      if t in graph.Keys {
        OneFewer(graph.Keys, old(types), t);
        VisitComponents(t, open + {t}, bound);
      }
    }

    /** The rest of visitType, once `t` is in the set: descend by kind. A
        type outside the graph has no components. */
    method VisitComponents(t: TypeId, ghost open: set<TypeId>, ghost bound: set<TypeId>)
      requires t in types && t in open
      requires ClosedExcept(graph, types, open)
      requires Closed(graph, bound) && types <= bound
      modifies this
      ensures old(types) <= types && types <= bound
      ensures ClosedExcept(graph, types, open - {t})
      decreases |graph.Keys - types|, 2
    {
      assert ChildrenIn(graph, t, bound);
      match Ty(graph, t).kind {
        case ArrayTy(e, _) =>
          VisitType(e, open, bound);
        case PointerTy(p, _) =>
          if p.Some? {
            VisitType(p.value, open, bound);
          }
        case StructTy(_, _, _, _) =>
          VisitStructType(t, open, bound);
        case VectorTy(e, _) =>
          VisitType(e, open, bound);
        case FunctionTy(_, _, _) =>
          VisitFunctionType(t, open, bound);
        case _ =>
          // Primitive, integer and unrecognised types have no components.
      }
    }

    /** visitStructType: the fields of a non-opaque struct, in order. */
    method VisitStructType(t: TypeId, ghost open: set<TypeId>, ghost bound: set<TypeId>)
      requires Ty(graph, t).kind.StructTy? && t in types && t in open
      requires ClosedExcept(graph, types, open)
      requires Closed(graph, bound) && types <= bound
      modifies this
      ensures old(types) <= types && types <= bound && ChildrenIn(graph, t, types)
      ensures ClosedExcept(graph, types, open - {t})
      decreases |graph.Keys - types|, 1
    {
      var k := Ty(graph, t).kind;
      assert ChildrenIn(graph, t, bound);
      if !k.isOpaque {
        var i := 0;
        while i < |k.fields|
          invariant i <= |k.fields| && old(types) <= types && types <= bound
          invariant forall j :: 0 <= j < i ==> k.fields[j] in types
          invariant ClosedExcept(graph, types, open)
        {
          Fewer(graph.Keys, old(types), types);
          VisitType(k.fields[i], open, bound);
          i := i + 1;
        }
      }
    }

    /** visitFunctionType: the return type, then the parameters in order. */
    method VisitFunctionType(t: TypeId, ghost open: set<TypeId>, ghost bound: set<TypeId>)
      requires Ty(graph, t).kind.FunctionTy? && t in types && t in open
      requires ClosedExcept(graph, types, open)
      requires Closed(graph, bound) && types <= bound
      modifies this
      ensures old(types) <= types && types <= bound && ChildrenIn(graph, t, types)
      ensures ClosedExcept(graph, types, open - {t})
      decreases |graph.Keys - types|, 1
    {
      var k := Ty(graph, t).kind;
      assert ChildrenIn(graph, t, bound);
      assert k.ret in Children(graph, t);
      VisitType(k.ret, open, bound);
      var i := 0;
      while i < |k.params|
        invariant i <= |k.params| && old(types) <= types && types <= bound && k.ret in types
        invariant forall j :: 0 <= j < i ==> k.params[j] in types
        invariant ClosedExcept(graph, types, open)
      {
        assert k.params[i] in Children(graph, t);
        Fewer(graph.Keys, old(types), types);
        VisitType(k.params[i], open, bound);
        i := i + 1;
      }
    }
  }
}
