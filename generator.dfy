// The fact generator's own state and its primitive operations: the fact
// sink, the cache of variable types, the set of types seen, the result map
// from ids to values, and the refmode engine with its context manager.
// `GenState` and the functions on it are the specification; the class
// `FactGenerator` is the object whose fields the writers update.
module Generator {
  import opened Common
  import opened Llvm
  import opened Contexts
  import opened Numbering
  import opened Refmodes

  /** The generator's whole state as a value. */
  datatype GenState = GenState(
    facts: seq<Fact>,
    ctx: CtxState,
    vars: map<string, TypeId>,
    types: set<TypeId>,
    results: map<string, ValueId>)

  /** writeFact: one more tuple at the end of the sink. */
  function Emit(s: GenState, pred: string, cols: seq<string>): GenState {
    s.(facts := s.facts + [Fact(pred, cols)])
  }

  /** recordVariable: the variable's type, replacing an earlier one. */
  function RecordVar(s: GenState, id: string, t: TypeId): GenState {
    s.(vars := s.vars[id := t])
  }

  /** recordType: the type joins the set and its refmode is returned. */
  function RecordTy(g: TypeGraph, s: GenState, t: TypeId): (string, GenState) {
    (TypeRefmode(g, t), s.(types := s.types + {t}))
  }

  /** result_map_.insert: an id already present keeps its first value. */
  function AddResult(s: GenState, key: string, v: ValueId): GenState {
    if key in s.results then s else s.(results := s.results[key := v])
  }

  // Refmodes read and update the context part of the state.

  function ValueRef(g: TypeGraph, s: GenState, v: Value): (string, GenState) {
    var (r, c) := ValueRefmode(g, s.ctx, v);
    (r, s.(ctx := c))
  }

  function ConstantRef(g: TypeGraph, s: GenState, c: Value): (string, GenState) {
    var (r, cs) := ConstantRefmode(g, s.ctx, c);
    (r, s.(ctx := cs))
  }

  function GlobalRef(g: TypeGraph, s: GenState, v: Value): (string, GenState)
    requires WellFormed(s.ctx)
  {
    var (r, c) := GlobalValueRefmode(g, s.ctx, v);
    (r, s.(ctx := c))
  }

  /** Whether the state is one the generator reaches. */
  ghost predicate Good(s: GenState) { WellFormed(s.ctx) }

  /** Only numberings change under refmodeOf, so well-formedness survives. */
  lemma SameShapeWellFormed(s: CtxState, u: CtxState)
    requires WellFormed(s) && SameShape(s, u)
    ensures WellFormed(u)
  {
  }

  // ---------------------------------------------------------------------
  // Properties of the primitives
  // ---------------------------------------------------------------------

  /** recordVariable overwrites: the later type wins, other ids keep theirs. */
  lemma RecordVariableOverwrites(s: GenState, id: string, t1: TypeId, t2: TypeId, other: string)
    requires other != id
    ensures RecordVar(RecordVar(s, id, t1), id, t2).vars[id] == t2
    ensures other in s.vars ==> RecordVar(s, id, t1).vars[other] == s.vars[other]
    ensures RecordVar(s, id, t1).vars.Keys == s.vars.Keys + {id}
  {
  }

  /** recordType is idempotent on the set and returns the same refmode each
      time. */
  lemma RecordTypeIdempotent(g: TypeGraph, s: GenState, t: TypeId)
    ensures RecordTy(g, RecordTy(g, s, t).1, t).1 == RecordTy(g, s, t).1
    ensures RecordTy(g, RecordTy(g, s, t).1, t).0 == RecordTy(g, s, t).0
    ensures t in RecordTy(g, s, t).1.types
    ensures RecordTy(g, s, t).1.types == s.types + {t}
  {
  }

  /** The result map keeps the first entry for an id. */
  lemma InsertResultKeepsFirst(s: GenState, key: string, v1: ValueId, v2: ValueId)
    requires key !in s.results
    ensures AddResult(AddResult(s, key, v1), key, v2).results[key] == v1
  {
  }

  /** Emit only appends. */
  lemma EmitAppends(s: GenState, pred: string, cols: seq<string>)
    ensures Emit(s, pred, cols).facts[..|s.facts|] == s.facts
    ensures Emit(s, pred, cols).facts[|s.facts|] == Fact(pred, cols)
    ensures Emit(s, pred, cols).(facts := s.facts) == s
  {
  }

  // ---------------------------------------------------------------------
  // The generator object
  // ---------------------------------------------------------------------

  class FactGenerator {
    const graph: TypeGraph
    const host: Host
    var facts: seq<Fact>
    var ctx: ContextManager?
    var variableTypes: map<string, TypeId>
    var types: set<TypeId>
    var resultMap: map<string, ValueId>

    function St(): GenState
      requires ctx != null
      reads this, ctx
    {
      GenState(facts, ctx.St(), variableTypes, types, resultMap)
    }

    ghost predicate Valid()
      reads this, ctx
    {
      ctx != null && ctx.Valid()
    }

    /** A generator over an LLVM context's types, using the given library
        behaviour, before any module is entered. */
    constructor (graph: TypeGraph, host: Host)
      ensures this.graph == graph && this.host == host
      ensures facts == [] && ctx == null && variableTypes == map[] && types == {} && resultMap == map[]
    {
      this.graph := graph;
      this.host := host;
      facts := [];
      ctx := null;
      variableTypes := map[];
      types := {};
      resultMap := map[];
    }

    method WriteFact(pred: string, cols: seq<string>)
      requires Valid()
      modifies this
      ensures Valid() && ctx == old(ctx)
      ensures St() == Emit(old(St()), pred, cols)
    {
      facts := facts + [Fact(pred, cols)];
    }

    method RecordVariable(id: string, t: TypeId)
      requires Valid()
      modifies this
      ensures Valid() && ctx == old(ctx)
      ensures St() == RecordVar(old(St()), id, t)
    {
      variableTypes := variableTypes[id := t];
    }

    method RecordType(t: TypeId) returns (r: string)
      requires Valid()
      modifies this
      ensures Valid() && ctx == old(ctx)
      ensures (r, St()) == RecordTy(graph, old(St()), t)
    {
      types := types + {t};
      r := TypeRefmode(graph, t);
    }

    method InsertResult(key: string, v: ValueId)
      requires Valid()
      modifies this
      ensures Valid() && ctx == old(ctx)
      ensures St() == AddResult(old(St()), key, v)
    {
      if key !in resultMap {
        resultMap := resultMap[key := v];
      }
    }

    /** enterModule: a fresh context manager for the module; frames and
        counters start over. Everything else is kept. */
    method EnterModule(path: string)
      modifies this
      ensures Valid() && fresh(ctx)
      ensures St() == GenState(old(facts), Initial(path), old(variableTypes), old(types), old(resultMap))
    {
      ctx := new ContextManager(path);
    }

    /** exitModule does nothing. */
    method ExitModule()
      requires Valid()
      ensures Valid()
    {
    }

    method EnterContext(a: Anchor)
      requires Valid()
      modifies ctx
      ensures Valid()
      ensures St() == old(St()).(ctx := Push(old(ctx.St()), a))
    {
      ctx.PushContext(a);
    }

    method ExitContext()
      requires Valid() && |ctx.contexts| >= 2
      modifies ctx
      ensures Valid()
      ensures St() == old(St()).(ctx := Pop(old(ctx.St())))
    {
      ctx.PopContext();
    }

    /** The function of the active function frame, if any. */
    method FunctionContext() returns (f: Option<Function>)
      requires Valid()
      ensures f == ActiveFunction(ctx.St())
    {
      var fr := ctx.FunctionContext();
      if fr.Some? {
        f := Some(fr.value.anchor.value.f);
      } else {
        f := None;
      }
    }

    // -------------------------------------------------------------------
    // The refmode engine
    // -------------------------------------------------------------------

    /** refmodeOf, with the reverse scan for the innermost function frame
        and the lazy numbering. */
    method RefmodeOf(v: Value) returns (r: string)
      requires Valid()
      modifies ctx
      ensures Valid()
      ensures (r, St()) == (Refmodes.RefmodeOf(graph, old(ctx.St()), v).0,
                            old(St()).(ctx := Refmodes.RefmodeOf(graph, old(ctx.St()), v).1))
      decreases v
    {
      if HasName(v) {
        r := Trim([if IsGlobalValue(v) then '@' else '%'] + v.name);
      } else if IsConstant(v) {
        r := Trim(v.printed);
      } else if IsVoid(graph, v.ty) {
        r := Trim(v.printed);
      } else if v.kind.MetadataV? {
        match v.kind.md {
          case LocalMd(inner) =>
            var t := RefmodeOf(inner);
            r := Trim(TypeRefmode(graph, inner.ty) + " " + t);
          case _ =>
            r := Trim(v.kind.md.text);
        }
      } else {
        r := SlotRefmode(v);
      }
    }

    /** The numbering branch of refmodeOf. */
    method SlotRefmode(v: Value) returns (r: string)
      requires Valid()
      modifies ctx
      ensures Valid()
      ensures (r, St()) == (Refmodes.SlotRefmode(graph, old(ctx.St()), v).0,
                            old(St()).(ctx := Refmodes.SlotRefmode(graph, old(ctx.St()), v).1))
    {
      var inner := FindInnermostFunction(ctx.contexts);
      if inner.None? {
        r := Trim(v.printed);
      } else {
        var k := inner.value;
        var fr := ctx.contexts[k];
        var numbering := fr.numbering;
        if |numbering| == 0 {
          numbering := ComputeNumbering(graph, fr.anchor.value.f);
        }
        if v.id !in numbering {
          numbering := numbering[v.id := 0];
        }
        r := Trim("%" + NatToString(numbering[v.id]));
        ctx.SetNumbering(k, numbering);
      }
    }

    method InstructionRefmode() returns (r: string)
      requires Valid()
      ensures r == Refmodes.InstructionRefmode(ctx.St())
    {
      var n := ctx.InstrCount();
      r := WithContext(ctx.contexts, FunctionT) + NatToString(PrevIndex(n));
    }

    method ConstantRefmode(c: Value) returns (r: string)
      requires Valid()
      modifies ctx
      ensures Valid()
      ensures (r, St()) == ConstantRef(graph, old(St()), c)
    {
      var pre := WithContext(ctx.contexts, InstructionT);
      var k := ctx.ConstantCount();
      var txt := RefmodeOf(c);
      r := pre + (NatToString(k) + ":" + txt);
    }

    method BlockRefmode(b: Value) returns (r: string)
      requires Valid()
      modifies ctx
      ensures Valid()
      ensures (r, St()) == (Refmodes.BlockRefmode(graph, old(ctx.St()), b).0,
                            old(St()).(ctx := Refmodes.BlockRefmode(graph, old(ctx.St()), b).1))
    {
      var name := RefmodeOf(b);
      r := WithContext(ctx.contexts, FunctionT) + "[basicblock]" + name;
    }

    method FunctionRefmode(f: Function) returns (r: string)
      requires Valid()
      ensures r == Refmodes.FunctionRefmode(ctx.St(), f)
    {
      r := ctx.contexts[0].prefix + ":" + f.self.name;
    }

    method AsmRefmode() returns (r: string)
      requires Valid()
      ensures r == Refmodes.AsmRefmode(ctx.St())
    {
      r := WithContext(ctx.contexts, InstructionT) + ":" + "<asm>";
    }

    method GlobalValueRefmode(v: Value) returns (r: string)
      requires Valid()
      modifies ctx
      ensures Valid()
      ensures (r, St()) == GlobalRef(graph, old(St()), v)
    {
      var id := RefmodeOf(v);
      r := ctx.contexts[0].prefix + ":" + id;
    }

    method ValueRefmode(v: Value) returns (r: string)
      requires Valid()
      modifies ctx
      ensures Valid()
      ensures (r, St()) == ValueRef(graph, old(St()), v)
    {
      if v.kind.BlockV? {
        r := BlockRefmode(v);
      } else {
        var id := RefmodeOf(v);
        r := WithContext(ctx.contexts, FunctionT) + id;
      }
    }

    method NodeRefmode(printed: string) returns (r: string)
      requires Valid()
      ensures r == Refmodes.NodeRefmode(ctx.St(), printed)
    {
      r := ctx.contexts[0].prefix + ":" + printed;
    }
  }

  /** The search for the innermost function frame, from the top down. */
  method FindInnermostFunction(frames: seq<Frame>) returns (r: Option<nat>)
    ensures r == InnermostFunction(frames)
  {
    var k := |frames|;
    while k > 0 && !frames[k - 1].IsFunction()
      invariant 0 <= k <= |frames|
      invariant forall j :: k <= j < |frames| ==> !frames[j].IsFunction()
    {
      k := k - 1;
    }
    if k == 0 {
      InnermostNone(frames);
      r := None;
    } else {
      InnermostAt(frames, k - 1);
      r := Some(k - 1);
    }
  }

  /** Appending a and then b is appending a + b. */
  lemma AppendTwice(s: GenState, a: seq<Fact>, b: seq<Fact>)
    ensures var m := s.(facts := s.facts + a); m.(facts := m.facts + b) == s.(facts := s.facts + (a + b))
  {
    assert s.facts + a + b == s.facts + (a + b);
  }

  /** Appending a, b and c in turn is appending a + b + c. */
  lemma AppendThree(s: GenState, a: seq<Fact>, b: seq<Fact>, c: seq<Fact>)
    ensures var m := s.(facts := s.facts + a); var m2 := m.(facts := m.facts + b);
      m2.(facts := m2.facts + c) == s.(facts := s.facts + (a + b + c))
  {
    assert s.facts + a + b + c == s.facts + (a + b + c);
  }

  lemma InnermostAt(frames: seq<Frame>, k: nat)
    requires k < |frames| && frames[k].IsFunction()
    requires forall j :: k < j < |frames| ==> !frames[j].IsFunction()
    ensures InnermostFunction(frames) == Some(k)
  {
  }

  lemma InnermostNone(frames: seq<Frame>)
    requires forall j :: 0 <= j < |frames| ==> !frames[j].IsFunction()
    ensures InnermostFunction(frames).None?
  {
  }
}
