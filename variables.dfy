// writeLocalVariables: after a function body, every variable cached so far
// is written with its type, its function and its name part, and the cache is
// emptied. The cache is an unordered map, so the order of the loop is an
// input here: any listing of its keys, each once.
module Variables {
  import opened Common
  import opened Llvm
  import opened Contexts
  import opened Refmodes
  import opened Generator
  import opened Listings

  /** The name part of a variable id: the suffix from the last '%' or '!',
      when there is one. */
  function NamePart(id: string): Option<string> {
    match FindLastOf(id, {'%', '!'})
    case None => None
    case Some(k) => Some(id[k..])
  }

  /** The facts for one cached variable. */
  function VarFacts(g: TypeGraph, id: string, t: TypeId, funcname: string): seq<Fact> {
    [Fact("variable::id", [id]),
     Fact("variable::type", [id, TypeRefmode(g, t)]),
     Fact("variable::in_func", [id, funcname])]
    + (match NamePart(id)
       case None => []
       case Some(n) => [Fact("variable::name", [id, n])])
  }

  /** An iteration order of the cache: each key once. */
  ghost predicate IterationOrder(order: seq<string>, vars: map<string, TypeId>) {
    && (forall i, j :: 0 <= i < j < |order| ==> order[i] != order[j])
    && (forall id :: id in vars <==> id in order)
  }

  /** One round of the loop. */
  function VarStep(g: TypeGraph, s: GenState, id: string, t: TypeId, funcname: string): GenState {
    var s := Emit(s, "variable::id", [id]);
    var (tr, s) := RecordTy(g, s, t);
    var s := Emit(s, "variable::type", [id, tr]);
    var s := Emit(s, "variable::in_func", [id, funcname]);
    match NamePart(id)
    case None => s
    case Some(n) => Emit(s, "variable::name", [id, n])
  }

  /** The first n rounds over `order`, reading types from the cache `vars`. */
  function VarSteps(g: TypeGraph, s: GenState, vars: map<string, TypeId>, order: seq<string>,
                    funcname: string, n: nat): GenState
    requires n <= |order| && forall i :: 0 <= i < |order| ==> order[i] in vars
  {
    if n == 0 then s
    else VarStep(g, VarSteps(g, s, vars, order, funcname, n - 1), order[n - 1], vars[order[n - 1]], funcname)
  }

  /** writeLocalVariables on the state. The function frame is dereferenced
      without a check, so one must be active. */
  function LocalVariables(g: TypeGraph, s: GenState, order: seq<string>): GenState
    requires ActiveFunction(s.ctx).Some? && IterationOrder(order, s.vars)
  {
    var funcname := "@" + ActiveFunction(s.ctx).value.self.name;
    VarSteps(g, s, s.vars, order, funcname, |order|).(vars := map[])
  }

  // ---------------------------------------------------------------------
  // What it writes
  // ---------------------------------------------------------------------

  /** The block each variable gets, by id; none for an id outside the
      cache. */
  function Blocks(g: TypeGraph, vars: map<string, TypeId>, funcname: string): string -> seq<Fact> {
    id => if id in vars then VarFacts(g, id, vars[id], funcname) else []
  }

  /** The types the ids of `order` have in the cache. */
  function TypesOf(vars: map<string, TypeId>, order: seq<string>): set<TypeId>
    requires forall i :: 0 <= i < |order| ==> order[i] in vars
  {
    set i | 0 <= i < |order| :: vars[order[i]]
  }

  lemma StepShape(g: TypeGraph, s: GenState, id: string, t: TypeId, funcname: string)
    ensures VarStep(g, s, id, t, funcname)
         == s.(facts := s.facts + VarFacts(g, id, t, funcname), types := s.types + {t})
  {
    var f := VarFacts(g, id, t, funcname);
    if NamePart(id).Some? {
      assert s.facts + f == s.facts + [f[0]] + [f[1]] + [f[2]] + [f[3]];
    } else {
      assert s.facts + f == s.facts + [f[0]] + [f[1]] + [f[2]];
    }
  }

  /** n rounds append the blocks of the first n variables and record their
      types; the cache, the result map and the contexts are untouched. */
  lemma {:induction false} StepsShape(g: TypeGraph, s: GenState, vars: map<string, TypeId>, order: seq<string>,
                                      funcname: string, n: nat, u: GenState)
    requires n <= |order| && forall i :: 0 <= i < |order| ==> order[i] in vars
    requires u == VarSteps(g, s, vars, order, funcname, n)
    ensures u == s.(facts := s.facts + Concat(Blocks(g, vars, funcname), order[..n]),
                    types := s.types + TypesOf(vars, order[..n]))
  {
    if n == 0 {
      assert s.facts + [] == s.facts;
      assert TypesOf(vars, []) == {};
    } else {
      var p := VarSteps(g, s, vars, order, funcname, n - 1);
      StepsShape(g, s, vars, order, funcname, n - 1, p);
      StepShape(g, p, order[n - 1], vars[order[n - 1]], funcname);
      ConcatStep(Blocks(g, vars, funcname), s.facts, order, n);
      TypesStep(s.types, vars, order, n);
    }
  }

  lemma ConcatStep(block: string -> seq<Fact>, pre: seq<Fact>, order: seq<string>, n: nat)
    requires 0 < n <= |order|
    ensures pre + Concat(block, order[..n - 1]) + block(order[n - 1]) == pre + Concat(block, order[..n])
  {
    assert order[..n][..n - 1] == order[..n - 1];
    var a := Concat(block, order[..n - 1]);
    assert pre + a + block(order[n - 1]) == pre + (a + block(order[n - 1]));
  }

  lemma TypesStep(pre: set<TypeId>, vars: map<string, TypeId>, order: seq<string>, n: nat)
    requires 0 < n <= |order| && forall i :: 0 <= i < |order| ==> order[i] in vars
    ensures pre + TypesOf(vars, order[..n - 1]) + {vars[order[n - 1]]} == pre + TypesOf(vars, order[..n])
  {
    var o := order[..n];
    forall x | x in TypesOf(vars, o) ensures x in TypesOf(vars, order[..n - 1]) + {vars[order[n - 1]]} {
      var i :| 0 <= i < n && vars[o[i]] == x;
      if i < n - 1 {
        assert order[..n - 1][i] == o[i];
      }
    }
    forall x | x in TypesOf(vars, order[..n - 1]) ensures x in TypesOf(vars, o) {
      var i :| 0 <= i < n - 1 && vars[order[..n - 1][i]] == x;
      assert o[i] == order[..n - 1][i];
    }
  }

  /** writeLocalVariables appends the blocks of the cached variables in
      the order walked, records every cached type, empties the cache and
      leaves the result map and the contexts as they were. */
  lemma LocalVariablesShape(g: TypeGraph, s: GenState, order: seq<string>, u: GenState)
    requires ActiveFunction(s.ctx).Some? && IterationOrder(order, s.vars)
    requires u == LocalVariables(g, s, order)
    ensures u.facts == s.facts + Concat(Blocks(g, s.vars, "@" + ActiveFunction(s.ctx).value.self.name), order)
    ensures u.types == s.types + s.vars.Values
    ensures u.vars == map[] && u.results == s.results && u.ctx == s.ctx
  {
    var funcname := "@" + ActiveFunction(s.ctx).value.self.name;
    var w := VarSteps(g, s, s.vars, order, funcname, |order|);
    StepsShape(g, s, s.vars, order, funcname, |order|, w);
    assert order[..|order|] == order;
    assert TypesOf(s.vars, order) == s.vars.Values by {
      forall t | t in s.vars.Values ensures t in TypesOf(s.vars, order) {
        var k :| k in s.vars && s.vars[k] == t;
        var i :| 0 <= i < |order| && order[i] == k;
      }
    }
  }

  /** The blocks hold, for every cached variable, its id fact, its type
      fact and its function fact; its name fact exactly when the id holds a
      '%' or '!', and then with the suffix from the last of them; and no id
      fact of a variable outside the cache. */
  lemma VariableFacts(g: TypeGraph, vars: map<string, TypeId>, order: seq<string>, funcname: string, id: string, name: string)
    requires IterationOrder(order, vars)
    ensures var all := Concat(Blocks(g, vars, funcname), order);
      && (id in vars ==>
            && Fact("variable::id", [id]) in all
            && Fact("variable::type", [id, TypeRefmode(g, vars[id])]) in all
            && Fact("variable::in_func", [id, funcname]) in all)
      && (Fact("variable::name", [id, name]) in all <==> id in vars && NamePart(id) == Some(name))
      && (Fact("variable::id", [id]) in all ==> id in vars)
  {
    var block := Blocks(g, vars, funcname);
    BlockContents(g, vars, funcname, id, name);
    if id in vars {
      var i :| 0 <= i < |order| && order[i] == id;
      ConcatHas(block, order, Fact("variable::id", [id]));
      ConcatHas(block, order, Fact("variable::type", [id, TypeRefmode(g, vars[id])]));
      ConcatHas(block, order, Fact("variable::in_func", [id, funcname]));
    }
    ConcatHas(block, order, Fact("variable::name", [id, name]));
    ConcatHas(block, order, Fact("variable::id", [id]));
  }

  /** What the block of one id holds, and that only its own id's block
      names it. */
  lemma BlockContents(g: TypeGraph, vars: map<string, TypeId>, funcname: string, id: string, name: string)
    ensures id in vars ==>
      && Fact("variable::id", [id]) in Blocks(g, vars, funcname)(id)
      && Fact("variable::type", [id, TypeRefmode(g, vars[id])]) in Blocks(g, vars, funcname)(id)
      && Fact("variable::in_func", [id, funcname]) in Blocks(g, vars, funcname)(id)
    ensures forall x :: Fact("variable::name", [id, name]) in Blocks(g, vars, funcname)(x)
                    <==> x == id && id in vars && NamePart(id) == Some(name)
    ensures forall x :: Fact("variable::id", [id]) in Blocks(g, vars, funcname)(x) ==> x == id && id in vars
  {
  }

  /** The facts of writeLocalVariables do not depend on the order the
      unordered cache is walked in. */
  lemma OrderIrrelevant(g: TypeGraph, s: GenState, o1: seq<string>, o2: seq<string>)
    requires ActiveFunction(s.ctx).Some? && IterationOrder(o1, s.vars) && IterationOrder(o2, s.vars)
    ensures multiset(LocalVariables(g, s, o1).facts) == multiset(LocalVariables(g, s, o2).facts)
    ensures LocalVariables(g, s, o1).(facts := []) == LocalVariables(g, s, o2).(facts := [])
  {
    LocalVariablesShape(g, s, o1, LocalVariables(g, s, o1));
    LocalVariablesShape(g, s, o2, LocalVariables(g, s, o2));
    DistinctSameMultiset(o1, o2);
    ConcatPermutation(Blocks(g, s.vars, "@" + ActiveFunction(s.ctx).value.self.name), o1, o2);
  }

  // ---------------------------------------------------------------------
  // The writer
  // ---------------------------------------------------------------------

  method WriteLocalVariables(gen: FactGenerator, order: seq<string>)
    requires gen.Valid() && ActiveFunction(gen.ctx.St()).Some? && IterationOrder(order, gen.variableTypes)
    modifies gen
    ensures gen.Valid() && gen.ctx == old(gen.ctx)
    ensures gen.St() == LocalVariables(gen.graph, old(gen.St()), order)
  {
    var f := gen.FunctionContext();
    WriteVariables(gen, order, "@" + f.value.self.name);
    gen.variableTypes := map[];
  }

  /** The loop over the cache. */
  method WriteVariables(gen: FactGenerator, order: seq<string>, funcname: string)
    requires gen.Valid() && forall i :: 0 <= i < |order| ==> order[i] in gen.variableTypes
    modifies gen
    ensures gen.Valid() && gen.ctx == old(gen.ctx)
    ensures gen.St() == VarSteps(gen.graph, old(gen.St()), old(gen.variableTypes), order, funcname, |order|)
  {
    var i := 0;
    while i < |order|
      invariant i <= |order|
      invariant gen.Valid() && gen.ctx == old(gen.ctx) && gen.variableTypes == old(gen.variableTypes)
      invariant gen.St() == VarSteps(gen.graph, old(gen.St()), old(gen.variableTypes), order, funcname, i)
    {
      WriteVariable(gen, order[i], funcname);
      i := i + 1;
    }
  }

  method WriteVariable(gen: FactGenerator, id: string, funcname: string)
    requires gen.Valid() && id in gen.variableTypes
    modifies gen
    ensures gen.Valid() && gen.ctx == old(gen.ctx)
    ensures gen.St() == VarStep(gen.graph, old(gen.St()), id, old(gen.variableTypes)[id], funcname)
  {
    gen.WriteFact("variable::id", [id]);
    var tr := gen.RecordType(gen.variableTypes[id]);
    gen.WriteFact("variable::type", [id, tr]);
    gen.WriteFact("variable::in_func", [id, funcname]);
    var k := LastSigil(id);
    if k.Some? {
      gen.WriteFact("variable::name", [id, id[k.value..]]);
    }
  }

  /** find_last_of("%!") by a backwards scan. */
  method LastSigil(id: string) returns (k: Option<nat>)
    ensures k == FindLastOf(id, {'%', '!'})
  {
    var j := |id|;
    while j > 0 && id[j - 1] != '%' && id[j - 1] != '!'
      invariant 0 <= j <= |id|
      invariant FindLastOf(id, {'%', '!'}) == FindLastOf(id[..j], {'%', '!'})
    {
      assert id[..j - 1] == id[..j][..j - 1];
      j := j - 1;
    }
    if j == 0 {
      k := None;
    } else {
      k := Some(j - 1);
    }
  }
}
