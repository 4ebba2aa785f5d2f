// The type visitor: the facts written for one type. A sized type first gets
// its allocation and store sizes; then exactly one group of facts follows,
// chosen by the type's kind, or none for the kinds the generator does not
// handle (x86_mmx, token, bfloat, x86_amx, typed pointers). Component types
// are named by their refmodes.
module TypeVisitor {
  import opened Common
  import opened Llvm
  import opened Refmodes
  import opened Generator
  import opened TypeClosure

  // ---------------------------------------------------------------------
  // Rows written by an index loop
  // ---------------------------------------------------------------------

  /** The rows of 0 .. n-1, one after another. */
  function Rows(row: nat -> seq<Fact>, n: nat): seq<Fact> {
    if n == 0 then [] else Rows(row, n - 1) + row(n - 1)
  }

  lemma {:induction false} SinglesAt(row: nat -> seq<Fact>, n: nat)
    requires forall i :: 0 <= i < n ==> |row(i)| == 1
    ensures |Rows(row, n)| == n
    ensures forall i :: 0 <= i < n ==> Rows(row, n)[i] == row(i)[0]
  {
    if n > 0 {
      SinglesAt(row, n - 1);
    }
  }

  lemma {:induction false} TriplesAt(row: nat -> seq<Fact>, n: nat)
    requires forall i :: 0 <= i < n ==> |row(i)| == 3
    ensures |Rows(row, n)| == 3 * n
    ensures forall i, j :: 0 <= i < n && 0 <= j < 3 ==> Rows(row, n)[3 * i + j] == row(i)[j]
  {
    if n > 0 {
      TriplesAt(row, n - 1);
    }
  }

  /** A fact among the rows belongs to one of them. */
  lemma {:induction false} RowsMember(row: nat -> seq<Fact>, n: nat, x: Fact)
    requires x in Rows(row, n)
    ensures exists i :: 0 <= i < n && x in row(i)
  {
    if x !in row(n - 1) {
      RowsMember(row, n - 1, x);
    }
  }

  lemma Assoc(a: seq<Fact>, b: seq<Fact>, c: seq<Fact>)
    ensures a + b + c == a + (b + c)
  {
  }

  /** One more row after a prefix. */
  lemma RowsStep(row: nat -> seq<Fact>, i: nat, pre: seq<Fact>, fs: seq<Fact>)
    requires row(i) == fs
    ensures pre + Rows(row, i) + fs == pre + Rows(row, i + 1)
  {
  }

  // ---------------------------------------------------------------------
  // The facts of one type
  // ---------------------------------------------------------------------

  /** Field i's type, offset and bit-offset facts. */
  function FieldRow(g: TypeGraph, dl: DataLayout, t: TypeId, fs: seq<TypeId>, i: nat): seq<Fact>
    requires i < |fs|
  {
    var tref, ix := TypeRefmode(g, t), NatToString(i);
    [Fact("struct_type::field_type", [tref, ix, TypeRefmode(g, fs[i])]),
     Fact("struct_type::field_offset", [tref, ix, NatToString(dl.elementOffset(t, i))]),
     Fact("struct_type::field_bit_offset", [tref, ix, NatToString(dl.elementOffsetInBits(t, i))])]
  }

  function FieldRows(g: TypeGraph, dl: DataLayout, t: TypeId, fs: seq<TypeId>): nat -> seq<Fact> {
    (i: nat) => if i < |fs| then FieldRow(g, dl, t, fs, i) else []
  }

  /** The facts of the fields, in order. */
  function FieldFacts(g: TypeGraph, dl: DataLayout, t: TypeId, fs: seq<TypeId>): seq<Fact> {
    Rows(FieldRows(g, dl, t, fs), |fs|)
  }

  function ParamRows(g: TypeGraph, t: TypeId, ps: seq<TypeId>): nat -> seq<Fact> {
    (i: nat) => if i < |ps| then [Fact("func_type::param_type", [TypeRefmode(g, t), NatToString(i), TypeRefmode(g, ps[i])])]
                else []
  }

  /** The facts of the parameters, in order. */
  function ParamFacts(g: TypeGraph, t: TypeId, ps: seq<TypeId>): seq<Fact> {
    Rows(ParamRows(g, t, ps), |ps|)
  }

  function SizeFacts(tref: string, sized: bool, alloc: nat, store: nat): seq<Fact> {
    if sized then
      [Fact("type::alloc_size", [tref, NatToString(alloc)]),
       Fact("type::store_size", [tref, NatToString(store)])]
    else []
  }

  /** A pointer type; `comp` is the pointee's refmode, absent when opaque. */
  function PointerFacts(tref: string, addrSpace: nat, comp: Option<string>): seq<Fact> {
    [Fact("ptr_type::id", [tref])]
    + When(addrSpace != 0, Fact("ptr_type::addr_space", [tref, NatToString(addrSpace)]))
    + (if comp.Some? then [Fact("ptr_type::component_type", [tref, comp.value])] else [])
  }

  function ArrayFacts(tref: string, comp: string, count: nat): seq<Fact> {
    [Fact("array_type::id", [tref]),
     Fact("array_type::component_type", [tref, comp]),
     Fact("array_type::size", [tref, NatToString(count)])]
  }

  /** A struct type with its field facts and number of fields. */
  function StructFacts(tref: string, name: string, isOpaque: bool, fields: seq<Fact>, n: nat): seq<Fact> {
    [Fact("struct_type::id", [tref])]
    + When(|name| > 0, Fact("struct_type::has_name", [tref, name]))
    + (if isOpaque then [Fact("struct_type::opaque", [tref])]
       else fields + [Fact("struct_type::nfields", [tref, NatToString(n)])])
  }

  /** A function type with its parameter facts and number of parameters. */
  function FunctionFacts(tref: string, varArg: bool, ret: string, params: seq<Fact>, n: nat): seq<Fact> {
    [Fact("func_type::id", [tref])]
    + When(varArg, Fact("func_type::varargs", [tref]))
    + [Fact("func_type::return_type", [tref, ret])]
    + params
    + [Fact("func_type::nparams", [tref, NatToString(n)])]
  }

  /** A vector type; `fixed` is the element count of a fixed-length one. */
  function VectorFacts(tref: string, fixed: Option<nat>, comp: string): seq<Fact> {
    (if fixed.Some? then [Fact("vector_type::size", [tref, NatToString(fixed.value)])] else [])
    + [Fact("vector_type::id", [tref]),
       Fact("vector_type::component_type", [tref, comp])]
  }

  /** The group of facts for the type's kind. */
  function KindFacts(g: TypeGraph, dl: DataLayout, t: TypeId): seq<Fact> {
    var tref := TypeRefmode(g, t);
    match Ty(g, t).kind
    case VoidTy => [Fact("primitive_type::id", [tref])]
    case LabelTy => [Fact("primitive_type::id", [tref])]
    case MetadataTy => [Fact("primitive_type::id", [tref])]
    case FloatingTy(_) => [Fact("fp_type::id", [tref])]
    case IntegerTy(_) => [Fact("integer_type::id", [tref])]
    case FunctionTy(r, ps, va) => FunctionFacts(tref, va, TypeRefmode(g, r), ParamFacts(g, t, ps), |ps|)
    case StructTy(name, _, op, fs) => StructFacts(tref, name, op, FieldFacts(g, dl, t, fs), |fs|)
    case ArrayTy(e, n) => ArrayFacts(tref, TypeRefmode(g, e), n)
    case PointerTy(p, a) => PointerFacts(tref, a, if p.Some? then Some(TypeRefmode(g, p.value)) else None)
    case VectorTy(e, n) => VectorFacts(tref, n, TypeRefmode(g, e))
    case X86MmxTy => []
    case OtherTy(_) => []
  }

  /** TypeVisitor::visitType: the sizes, then the kind's group. */
  function TypeFacts(g: TypeGraph, dl: DataLayout, t: TypeId): seq<Fact> {
    SizeFacts(TypeRefmode(g, t), Ty(g, t).sized, dl.allocSize(t), dl.storeSize(t)) + KindFacts(g, dl, t)
  }

  // ---------------------------------------------------------------------
  // Counting facts by predicate
  // ---------------------------------------------------------------------

  /** How many of `fs` have a predicate in `ps`. */
  function CountIn(fs: seq<Fact>, ps: set<string>): nat {
    if |fs| == 0 then 0
    else CountIn(fs[..|fs| - 1], ps) + (if fs[|fs| - 1].pred in ps then 1 else 0)
  }

  lemma {:induction false} CountInAppend(a: seq<Fact>, b: seq<Fact>, ps: set<string>)
    ensures CountIn(a + b, ps) == CountIn(a, ps) + CountIn(b, ps)
    decreases |b|
  {
    if |b| > 0 {
      assert (a + b)[..|a + b| - 1] == a + b[..|b| - 1];
      CountInAppend(a, b[..|b| - 1], ps);
    } else {
      assert a + b == a;
    }
  }

  /** Every fact of `fs` has its predicate in `q`. */
  predicate PredsIn(fs: seq<Fact>, q: set<string>) {
    forall i :: 0 <= i < |fs| ==> fs[i].pred in q
  }

  lemma PredsInAppend(a: seq<Fact>, b: seq<Fact>, q: set<string>)
    requires PredsIn(a, q) && PredsIn(b, q)
    ensures PredsIn(a + b, q)
  {
    forall i | 0 <= i < |a + b| ensures (a + b)[i].pred in q {
      if i >= |a| {
        assert (a + b)[i] == b[i - |a|];
      }
    }
  }

  lemma {:induction false} CountOutside(fs: seq<Fact>, q: set<string>, ps: set<string>)
    requires PredsIn(fs, q) && q !! ps
    ensures CountIn(fs, ps) == 0
  {
    if |fs| > 0 {
      assert fs[|fs| - 1].pred in q;
      CountOutside(fs[..|fs| - 1], q, ps);
    }
  }

  lemma CountInOne(f: Fact, ps: set<string>)
    ensures CountIn([f], ps) == if f.pred in ps then 1 else 0
  {
    assert [f][..0] == [];
  }

  /** The predicates that name a type as belonging to one kind group. */
  function KindIdPreds(): set<string> {
    {"primitive_type::id", "fp_type::id", "integer_type::id", "func_type::id",
     "struct_type::id", "array_type::id", "ptr_type::id", "vector_type::id"}
  }

  function SizePreds(): set<string> {
    {"type::alloc_size", "type::store_size"}
  }

  /** The predicates of one field's row. */
  function FieldRowPreds(): set<string> {
    {"struct_type::field_type", "struct_type::field_offset", "struct_type::field_bit_offset"}
  }

  function FieldPreds(): set<string> {
    FieldRowPreds() + {"struct_type::nfields"}
  }

  /** The predicates whose last column names a component type. */
  function ComponentPreds(): set<string> {
    {"ptr_type::component_type", "array_type::component_type", "vector_type::component_type",
     "struct_type::field_type", "func_type::return_type", "func_type::param_type"}
  }

  /** The kinds the visitor writes a group for. */
  predicate Handled(k: TypeKind) {
    !k.X86MmxTy? && !k.OtherTy?
  }

  /** A group that opens with its kind-id fact, followed by facts of other
      predicates only, holds one kind-id fact and no size fact. */
  lemma GroupCounts(f: Fact, rest: seq<Fact>, q: set<string>)
    requires f.pred in KindIdPreds() && PredsIn(rest, q) && q !! KindIdPreds() && q !! SizePreds()
    ensures CountIn([f] + rest, KindIdPreds()) == 1
    ensures CountIn([f] + rest, SizePreds()) == 0
  {
    CountInAppend([f], rest, KindIdPreds());
    CountInAppend([f], rest, SizePreds());
    CountInOne(f, KindIdPreds());
    CountInOne(f, SizePreds());
    CountOutside(rest, q, KindIdPreds());
    CountOutside(rest, q, SizePreds());
  }

  // ---------------------------------------------------------------------
  // Field and parameter facts
  // ---------------------------------------------------------------------

  /** Field i's three facts sit at 3i, 3i+1 and 3i+2. */
  lemma FieldFactsAt(g: TypeGraph, dl: DataLayout, t: TypeId, fs: seq<TypeId>)
    ensures |FieldFacts(g, dl, t, fs)| == 3 * |fs|
    ensures forall i, j :: 0 <= i < |fs| && 0 <= j < 3 ==>
      FieldFacts(g, dl, t, fs)[3 * i + j] == FieldRow(g, dl, t, fs, i)[j]
  {
    var row := FieldRows(g, dl, t, fs);
    forall i | 0 <= i < |fs| ensures row(i) == FieldRow(g, dl, t, fs, i) && |row(i)| == 3 {
    }
    TriplesAt(row, |fs|);
  }

  /** A field fact is one of field i's three facts. */
  lemma FieldMember(g: TypeGraph, dl: DataLayout, t: TypeId, fs: seq<TypeId>, f: Fact)
    requires f in FieldFacts(g, dl, t, fs)
    ensures exists i :: 0 <= i < |fs| && f in FieldRow(g, dl, t, fs, i)
  {
    RowsMember(FieldRows(g, dl, t, fs), |fs|, f);
    var i :| 0 <= i < |fs| && f in FieldRows(g, dl, t, fs)(i);
    assert FieldRows(g, dl, t, fs)(i) == FieldRow(g, dl, t, fs, i);
  }

  /** Every field fact belongs to a field row. */
  lemma FieldFactsPreds(g: TypeGraph, dl: DataLayout, t: TypeId, fs: seq<TypeId>)
    ensures PredsIn(FieldFacts(g, dl, t, fs), FieldRowPreds())
  {
    var F := FieldFacts(g, dl, t, fs);
    forall m | 0 <= m < |F| ensures F[m].pred in FieldRowPreds() {
      FieldMember(g, dl, t, fs, F[m]);
    }
  }

  /** Parameter i's fact sits at i. */
  lemma ParamFactsAt(g: TypeGraph, t: TypeId, ps: seq<TypeId>)
    ensures |ParamFacts(g, t, ps)| == |ps|
    ensures forall i :: 0 <= i < |ps| ==>
      ParamFacts(g, t, ps)[i] == Fact("func_type::param_type", [TypeRefmode(g, t), NatToString(i), TypeRefmode(g, ps[i])])
  {
    var row := ParamRows(g, t, ps);
    forall i | 0 <= i < |ps|
      ensures row(i) == [Fact("func_type::param_type", [TypeRefmode(g, t), NatToString(i), TypeRefmode(g, ps[i])])]
    {
    }
    SinglesAt(row, |ps|);
  }

  lemma ParamFactsPreds(g: TypeGraph, t: TypeId, ps: seq<TypeId>)
    ensures PredsIn(ParamFacts(g, t, ps), {"func_type::param_type"})
  {
    ParamFactsAt(g, t, ps);
  }

  // ---------------------------------------------------------------------
  // Counts per kind group
  // ---------------------------------------------------------------------

  lemma SizeCounts(tref: string, sized: bool, alloc: nat, store: nat)
    ensures CountIn(SizeFacts(tref, sized, alloc, store), SizePreds()) == if sized then 2 else 0
    ensures CountIn(SizeFacts(tref, sized, alloc, store), KindIdPreds()) == 0
  {
    var S := SizeFacts(tref, sized, alloc, store);
    assert PredsIn(S, SizePreds());
    CountOutside(S, SizePreds(), KindIdPreds());
    if sized {
      CountInAppend([S[0]], [S[1]], SizePreds());
      CountInOne(S[0], SizePreds());
      CountInOne(S[1], SizePreds());
      assert S == [S[0]] + [S[1]];
    }
  }

  lemma PointerCounts(tref: string, addrSpace: nat, comp: Option<string>)
    ensures CountIn(PointerFacts(tref, addrSpace, comp), KindIdPreds()) == 1
    ensures CountIn(PointerFacts(tref, addrSpace, comp), SizePreds()) == 0
  {
    var q := {"ptr_type::addr_space", "ptr_type::component_type"};
    var a := When(addrSpace != 0, Fact("ptr_type::addr_space", [tref, NatToString(addrSpace)]));
    var b := if comp.Some? then [Fact("ptr_type::component_type", [tref, comp.value])] else [];
    assert PredsIn(a + b, q) by {
      PredsInAppend(a, b, q);
    }
    GroupCounts(Fact("ptr_type::id", [tref]), a + b, q);
    assert PointerFacts(tref, addrSpace, comp) == [Fact("ptr_type::id", [tref])] + (a + b);
  }

  lemma ArrayCounts(tref: string, comp: string, count: nat)
    ensures CountIn(ArrayFacts(tref, comp, count), KindIdPreds()) == 1
    ensures CountIn(ArrayFacts(tref, comp, count), SizePreds()) == 0
  {
    var A := ArrayFacts(tref, comp, count);
    var q := {"array_type::component_type", "array_type::size"};
    assert PredsIn(A[1..], q);
    assert A == [A[0]] + A[1..];
    GroupCounts(A[0], A[1..], q);
  }

  lemma VectorCounts(tref: string, fixed: Option<nat>, comp: string)
    ensures CountIn(VectorFacts(tref, fixed, comp), KindIdPreds()) == 1
    ensures CountIn(VectorFacts(tref, fixed, comp), SizePreds()) == 0
  {
    var pre := if fixed.Some? then [Fact("vector_type::size", [tref, NatToString(fixed.value)])] else [];
    var rest := [Fact("vector_type::id", [tref]), Fact("vector_type::component_type", [tref, comp])];
    var q := {"vector_type::size", "vector_type::component_type"};
    assert PredsIn(pre, q);
    assert rest == [rest[0]] + rest[1..];
    assert PredsIn(rest[1..], q);
    GroupCounts(rest[0], rest[1..], q);
    CountOutside(pre, q, KindIdPreds());
    CountOutside(pre, q, SizePreds());
    CountInAppend(pre, rest, KindIdPreds());
    CountInAppend(pre, rest, SizePreds());
  }

  lemma StructCounts(tref: string, name: string, isOpaque: bool, fields: seq<Fact>, n: nat)
    requires PredsIn(fields, FieldRowPreds())
    ensures CountIn(StructFacts(tref, name, isOpaque, fields, n), KindIdPreds()) == 1
    ensures CountIn(StructFacts(tref, name, isOpaque, fields, n), SizePreds()) == 0
    ensures isOpaque ==> CountIn(StructFacts(tref, name, isOpaque, fields, n), FieldPreds()) == 0
  {
    var q := FieldPreds() + {"struct_type::has_name", "struct_type::opaque"};
    var nm := When(|name| > 0, Fact("struct_type::has_name", [tref, name]));
    var tail := if isOpaque then [Fact("struct_type::opaque", [tref])]
                else fields + [Fact("struct_type::nfields", [tref, NatToString(n)])];
    assert PredsIn(nm + tail, q) by {
      if !isOpaque {
        PredsInAppend(fields, [Fact("struct_type::nfields", [tref, NatToString(n)])], q);
      }
      PredsInAppend(nm, tail, q);
    }
    assert StructFacts(tref, name, isOpaque, fields, n) == [Fact("struct_type::id", [tref])] + (nm + tail);
    assert q !! KindIdPreds() && q !! SizePreds();
    GroupCounts(Fact("struct_type::id", [tref]), nm + tail, q);
    if isOpaque {
      var r := {"struct_type::id", "struct_type::has_name", "struct_type::opaque"};
      assert CountIn(StructFacts(tref, name, isOpaque, fields, n), FieldPreds()) == 0 by {
        assert PredsIn(StructFacts(tref, name, isOpaque, fields, n), r);
        CountOutside(StructFacts(tref, name, isOpaque, fields, n), r, FieldPreds());
      }
    }
  }

  lemma FunctionCounts(tref: string, varArg: bool, ret: string, params: seq<Fact>, n: nat)
    requires PredsIn(params, {"func_type::param_type"})
    ensures CountIn(FunctionFacts(tref, varArg, ret, params, n), KindIdPreds()) == 1
    ensures CountIn(FunctionFacts(tref, varArg, ret, params, n), SizePreds()) == 0
  {
    var q := {"func_type::varargs", "func_type::return_type", "func_type::param_type", "func_type::nparams"};
    var mid := When(varArg, Fact("func_type::varargs", [tref])) + [Fact("func_type::return_type", [tref, ret])];
    var tail := [Fact("func_type::nparams", [tref, NatToString(n)])];
    assert PredsIn(mid + params + tail, q) by {
      assert PredsIn(mid, q) && PredsIn(tail, q);
      PredsInAppend(mid, params, q);
      PredsInAppend(mid + params, tail, q);
    }
    assert FunctionFacts(tref, varArg, ret, params, n) == [Fact("func_type::id", [tref])] + (mid + params + tail);
    GroupCounts(Fact("func_type::id", [tref]), mid + params + tail, q);
  }

  lemma FunctionKindCounts(g: TypeGraph, dl: DataLayout, t: TypeId)
    requires Ty(g, t).kind.FunctionTy?
    ensures CountIn(KindFacts(g, dl, t), KindIdPreds()) == 1
    ensures CountIn(KindFacts(g, dl, t), SizePreds()) == 0
  {
    var k, tref := Ty(g, t).kind, TypeRefmode(g, t);
    var F := FunctionFacts(tref, k.varArg, TypeRefmode(g, k.ret), ParamFacts(g, t, k.params), |k.params|);
    assert CountIn(F, KindIdPreds()) == 1 && CountIn(F, SizePreds()) == 0 by {
      ParamFactsPreds(g, t, k.params);
      FunctionCounts(tref, k.varArg, TypeRefmode(g, k.ret), ParamFacts(g, t, k.params), |k.params|);
    }
    assert KindFacts(g, dl, t) == F;
  }

  lemma StructKindCounts(g: TypeGraph, dl: DataLayout, t: TypeId)
    requires Ty(g, t).kind.StructTy?
    ensures CountIn(KindFacts(g, dl, t), KindIdPreds()) == 1
    ensures CountIn(KindFacts(g, dl, t), SizePreds()) == 0
  {
    var k, tref := Ty(g, t).kind, TypeRefmode(g, t);
    var F := FieldFacts(g, dl, t, k.fields);
    FieldFactsPreds(g, dl, t, k.fields);
    StructCounts(tref, k.name, k.isOpaque, F, |k.fields|);
    StructKindFacts(g, dl, t);
  }

  /** The group of a struct type. */
  lemma StructKindFacts(g: TypeGraph, dl: DataLayout, t: TypeId)
    requires Ty(g, t).kind.StructTy?
    ensures var k := Ty(g, t).kind;
      KindFacts(g, dl, t) == StructFacts(TypeRefmode(g, t), k.name, k.isOpaque, FieldFacts(g, dl, t, k.fields), |k.fields|)
  {
  }

  /** The kind group of a type: one fact that names the type as a member
      of a kind for every handled kind, none otherwise, and no size fact. */
  lemma KindCounts(g: TypeGraph, dl: DataLayout, t: TypeId)
    ensures CountIn(KindFacts(g, dl, t), KindIdPreds()) == if Handled(Ty(g, t).kind) then 1 else 0
    ensures CountIn(KindFacts(g, dl, t), SizePreds()) == 0
  {
    var tref := TypeRefmode(g, t);
    match Ty(g, t).kind
    case FunctionTy(r, ps, va) =>
      FunctionKindCounts(g, dl, t);
    case StructTy(name, _, op, fs) =>
      StructKindCounts(g, dl, t);
    case ArrayTy(e, n) =>
      assert KindFacts(g, dl, t) == ArrayFacts(tref, TypeRefmode(g, e), n);
      ArrayCounts(tref, TypeRefmode(g, e), n);
    case PointerTy(p, a) =>
      assert KindFacts(g, dl, t) == PointerFacts(tref, a, if p.Some? then Some(TypeRefmode(g, p.value)) else None);
      PointerCounts(tref, a, if p.Some? then Some(TypeRefmode(g, p.value)) else None);
    case VectorTy(e, n) =>
      assert KindFacts(g, dl, t) == VectorFacts(tref, n, TypeRefmode(g, e));
      VectorCounts(tref, n, TypeRefmode(g, e));
    case X86MmxTy =>
    case OtherTy(_) =>
    case _ =>
      GroupCounts(KindFacts(g, dl, t)[0], [], {});
      assert KindFacts(g, dl, t) == [KindFacts(g, dl, t)[0]] + [];
  }

  // ---------------------------------------------------------------------
  // Properties of the facts of one type
  // ---------------------------------------------------------------------

  /** A sized type gets both size facts first; an unsized one gets none.
      Then exactly one fact names the type as a member of a kind group,
      and none at all when the visitor does not handle its kind. */
  lemma TypeFactsShape(g: TypeGraph, dl: DataLayout, t: TypeId)
    ensures var F, tref := TypeFacts(g, dl, t), TypeRefmode(g, t);
      && (Ty(g, t).sized ==>
            && F[0] == Fact("type::alloc_size", [tref, NatToString(dl.allocSize(t))])
            && F[1] == Fact("type::store_size", [tref, NatToString(dl.storeSize(t))]))
      && CountIn(F, SizePreds()) == (if Ty(g, t).sized then 2 else 0)
      && CountIn(F, KindIdPreds()) == if Handled(Ty(g, t).kind) then 1 else 0
  {
    var S := SizeFacts(TypeRefmode(g, t), Ty(g, t).sized, dl.allocSize(t), dl.storeSize(t));
    var K := KindFacts(g, dl, t);
    SizeCounts(TypeRefmode(g, t), Ty(g, t).sized, dl.allocSize(t), dl.storeSize(t));
    KindCounts(g, dl, t);
    CountInAppend(S, K, SizePreds());
    CountInAppend(S, K, KindIdPreds());
  }

  /** A fact whose predicate lies outside `q` is not among facts in `q`. */
  lemma NotInByPred(x: Fact, fs: seq<Fact>, q: set<string>)
    requires PredsIn(fs, q) && x.pred !in q
    ensures x !in fs
  {
    forall i | 0 <= i < |fs| ensures fs[i] != x {
      assert fs[i].pred in q;
    }
  }

  /** A struct's group: its id first; the name fact exactly for a named
      struct; for an opaque one the opaque fact and no field facts; for
      any other the field facts as given, then the number of fields. */
  lemma StructLayout(tref: string, name: string, isOpaque: bool, fields: seq<Fact>, n: nat)
    requires PredsIn(fields, FieldRowPreds())
    ensures var S, base := StructFacts(tref, name, isOpaque, fields, n), if |name| > 0 then 2 else 1;
      && S[0] == Fact("struct_type::id", [tref])
      && (Fact("struct_type::has_name", [tref, name]) in S <==> |name| > 0)
      && (isOpaque ==> Fact("struct_type::opaque", [tref]) in S && CountIn(S, FieldPreds()) == 0)
      && (!isOpaque ==>
            && |S| == base + |fields| + 1
            && Fact("struct_type::opaque", [tref]) !in S
            && S[base..base + |fields|] == fields
            && S[|S| - 1] == Fact("struct_type::nfields", [tref, NatToString(n)]))
  {
    var id, nm := Fact("struct_type::id", [tref]), Fact("struct_type::has_name", [tref, name]);
    var head := [id] + When(|name| > 0, nm);
    var S := StructFacts(tref, name, isOpaque, fields, n);
    if isOpaque {
      StructCounts(tref, name, isOpaque, fields, n);
      assert S == head + [Fact("struct_type::opaque", [tref])];
    } else {
      var tail := [Fact("struct_type::nfields", [tref, NatToString(n)])];
      assert S == head + (fields + tail);
      assert S[|head|..|head| + |fields|] == fields;
      assert PredsIn(fields + tail, FieldPreds()) by {
        PredsInAppend(fields, tail, FieldPreds());
      }
      NotInByPred(Fact("struct_type::opaque", [tref]), fields + tail, FieldPreds());
      NotInByPred(nm, fields + tail, FieldPreds());
    }
  }

  /** Field i of a non-opaque struct: its type fact carries index i and the
      field type's refmode, at its place in the struct's group. */
  lemma StructFieldAt(g: TypeGraph, dl: DataLayout, t: TypeId, i: nat)
    requires Ty(g, t).kind.StructTy? && !Ty(g, t).kind.isOpaque && i < |Ty(g, t).kind.fields|
    ensures var k := Ty(g, t).kind;
      var S, base := KindFacts(g, dl, t), if |k.name| > 0 then 2 else 1;
      && base + 3 * i + 2 < |S|
      && S[base + 3 * i] == Fact("struct_type::field_type", [TypeRefmode(g, t), NatToString(i), TypeRefmode(g, k.fields[i])])
      && S[base + 3 * i + 1] == Fact("struct_type::field_offset", [TypeRefmode(g, t), NatToString(i), NatToString(dl.elementOffset(t, i))])
      && S[base + 3 * i + 2] == Fact("struct_type::field_bit_offset", [TypeRefmode(g, t), NatToString(i), NatToString(dl.elementOffsetInBits(t, i))])
  {
    var k, tref := Ty(g, t).kind, TypeRefmode(g, t);
    var F := FieldFacts(g, dl, t, k.fields);
    var head := [Fact("struct_type::id", [tref])] + When(|k.name| > 0, Fact("struct_type::has_name", [tref, k.name]));
    var tail := [Fact("struct_type::nfields", [tref, NatToString(|k.fields|)])];
    assert KindFacts(g, dl, t) == head + F + tail by {
      Assoc(head, F, tail);
    }
    FieldFactsAt(g, dl, t, k.fields);
    Middle(head, F, tail, 3 * i);
    Middle(head, F, tail, 3 * i + 1);
    Middle(head, F, tail, 3 * i + 2);
    assert F[3 * i + 0] == FieldRow(g, dl, t, k.fields, i)[0];
    assert F[3 * i + 1] == FieldRow(g, dl, t, k.fields, i)[1];
    assert F[3 * i + 2] == FieldRow(g, dl, t, k.fields, i)[2];
  }

  /** A function's group: its id; the varargs fact exactly when it is
      variadic; the return type; parameter i with index i; the number of
      parameters. */
  lemma FunctionLayout(tref: string, varArg: bool, ret: string, params: seq<Fact>, n: nat)
    requires PredsIn(params, {"func_type::param_type"})
    ensures var S, base := FunctionFacts(tref, varArg, ret, params, n), if varArg then 3 else 2;
      && |S| == base + |params| + 1
      && S[0] == Fact("func_type::id", [tref])
      && (Fact("func_type::varargs", [tref]) in S <==> varArg)
      && S[base - 1] == Fact("func_type::return_type", [tref, ret])
      && S[base..base + |params|] == params
      && S[|S| - 1] == Fact("func_type::nparams", [tref, NatToString(n)])
  {
    var head := [Fact("func_type::id", [tref])] + When(varArg, Fact("func_type::varargs", [tref]))
      + [Fact("func_type::return_type", [tref, ret])];
    var tail := [Fact("func_type::nparams", [tref, NatToString(n)])];
    var S := FunctionFacts(tref, varArg, ret, params, n);
    assert S == head + params + tail;
    assert S[|head|..|head| + |params|] == params;
    if !varArg {
      var q := {"func_type::id", "func_type::return_type", "func_type::param_type", "func_type::nparams"};
      assert PredsIn(S, q) by {
        assert PredsIn(head, q) && PredsIn(tail, q) && PredsIn(params, q);
        PredsInAppend(head, params, q);
        PredsInAppend(head + params, tail, q);
      }
      NotInByPred(Fact("func_type::varargs", [tref]), S, q);
    }
  }

  /** Parameter i of a function type: its fact carries index i and the
      parameter type's refmode, at its place in the function's group. */
  lemma FunctionParamAt(g: TypeGraph, dl: DataLayout, t: TypeId, i: nat)
    requires Ty(g, t).kind.FunctionTy? && i < |Ty(g, t).kind.params|
    ensures var k := Ty(g, t).kind;
      var S, base := KindFacts(g, dl, t), if k.varArg then 3 else 2;
      && base + i < |S|
      && S[base + i] == Fact("func_type::param_type", [TypeRefmode(g, t), NatToString(i), TypeRefmode(g, k.params[i])])
  {
    var k, tref := Ty(g, t).kind, TypeRefmode(g, t);
    var P := ParamFacts(g, t, k.params);
    var head := [Fact("func_type::id", [tref])] + When(k.varArg, Fact("func_type::varargs", [tref]))
      + [Fact("func_type::return_type", [tref, TypeRefmode(g, k.ret)])];
    var tail := [Fact("func_type::nparams", [tref, NatToString(|k.params|)])];
    assert KindFacts(g, dl, t) == head + P + tail;
    ParamFactsAt(g, t, k.params);
    Middle(head, P, tail, i);
  }

  /** A pointer's group: the address space only when non-zero, the
      pointee only when the pointer is not opaque. */
  lemma PointerLayout(tref: string, addrSpace: nat, comp: Option<string>)
    ensures var S := PointerFacts(tref, addrSpace, comp);
      && S[0] == Fact("ptr_type::id", [tref])
      && (Fact("ptr_type::addr_space", [tref, NatToString(addrSpace)]) in S <==> addrSpace != 0)
      && (forall c :: Fact("ptr_type::component_type", [tref, c]) in S <==> comp == Some(c))
  {
    var S := PointerFacts(tref, addrSpace, comp);
    var a := When(addrSpace != 0, Fact("ptr_type::addr_space", [tref, NatToString(addrSpace)]));
    var b := if comp.Some? then [Fact("ptr_type::component_type", [tref, comp.value])] else [];
    assert S == [Fact("ptr_type::id", [tref])] + a + b;
  }

  /** A vector's group: the size fact exactly for a fixed-length vector,
      carrying its element count. */
  lemma VectorLayout(tref: string, fixed: Option<nat>, comp: string)
    ensures var S := VectorFacts(tref, fixed, comp);
      && (forall m: nat :: Fact("vector_type::size", [tref, NatToString(m)]) in S <==> fixed == Some(m))
      && Fact("vector_type::id", [tref]) in S
      && Fact("vector_type::component_type", [tref, comp]) in S
  {
    var S := VectorFacts(tref, fixed, comp);
    forall m: nat ensures Fact("vector_type::size", [tref, NatToString(m)]) in S ==> fixed == Some(m) {
      if Fact("vector_type::size", [tref, NatToString(m)]) in S {
        assert fixed.Some? && S[0] == Fact("vector_type::size", [tref, NatToString(m)]);
        NatToStringInjective(m, fixed.value);
      }
    }
  }

  /** A field fact that names a component is field i's type fact. */
  lemma FieldComponent(g: TypeGraph, dl: DataLayout, t: TypeId, fs: seq<TypeId>, f: Fact)
    requires f in FieldFacts(g, dl, t, fs) && f.pred in ComponentPreds()
    ensures exists i :: 0 <= i < |fs| && f == Fact("struct_type::field_type", [TypeRefmode(g, t), NatToString(i), TypeRefmode(g, fs[i])])
  {
    FieldMember(g, dl, t, fs, f);
    var i :| 0 <= i < |fs| && f in FieldRow(g, dl, t, fs, i);
    OffsetsNotComponents();
  }

  lemma OffsetsNotComponents()
    ensures "struct_type::field_offset" !in ComponentPreds() && "struct_type::field_bit_offset" !in ComponentPreds()
  {
  }

  /** A parameter fact is parameter i's fact. */
  lemma ParamComponent(g: TypeGraph, t: TypeId, ps: seq<TypeId>, f: Fact)
    requires f in ParamFacts(g, t, ps)
    ensures exists i :: 0 <= i < |ps| && f == Fact("func_type::param_type", [TypeRefmode(g, t), NatToString(i), TypeRefmode(g, ps[i])])
  {
    ParamFactsAt(g, t, ps);
    var i :| 0 <= i < |ps| && ParamFacts(g, t, ps)[i] == f;
  }

  /** In a struct's group only the field facts name components. */
  lemma StructComponent(tref: string, name: string, isOpaque: bool, fields: seq<Fact>, n: nat, f: Fact)
    requires f in StructFacts(tref, name, isOpaque, fields, n) && f.pred in ComponentPreds()
    ensures !isOpaque && f in fields
  {
  }

  /** In a function's group only the return type and parameter facts name
      components. */
  lemma FunctionComponent(tref: string, varArg: bool, ret: string, params: seq<Fact>, n: nat, f: Fact)
    requires f in FunctionFacts(tref, varArg, ret, params, n) && f.pred in ComponentPreds()
    ensures f == Fact("func_type::return_type", [tref, ret]) || f in params
  {
  }

  /** The last column of a fact names a component of `t`. */
  ghost predicate NamesComponent(g: TypeGraph, t: TypeId, f: Fact) {
    |f.cols| > 0 && exists c :: c in Children(g, t) && f.cols[|f.cols| - 1] == TypeRefmode(g, c)
  }

  /** Every component named by a fact of the type's group is one of the
      components the accumulator descends into. */
  lemma ComponentsNamed(g: TypeGraph, dl: DataLayout, t: TypeId, f: Fact)
    requires f in KindFacts(g, dl, t) && f.pred in ComponentPreds()
    ensures NamesComponent(g, t, f)
  {
    var tref := TypeRefmode(g, t);
    match Ty(g, t).kind
    case FunctionTy(r, ps, va) =>
      FunctionComponentsNamed(g, dl, t, f);
    case StructTy(name, _, op, fs) =>
      StructComponentsNamed(g, dl, t, f);
    case ArrayTy(e, n) =>
      assert f == Fact("array_type::component_type", [tref, TypeRefmode(g, e)]);
      assert e in Children(g, t) && f.cols[|f.cols| - 1] == TypeRefmode(g, e);
    case PointerTy(p, a) =>
      assert p.Some? && f == Fact("ptr_type::component_type", [tref, TypeRefmode(g, p.value)]);
      assert p.value in Children(g, t) && f.cols[|f.cols| - 1] == TypeRefmode(g, p.value);
    case VectorTy(e, n) =>
      assert f == Fact("vector_type::component_type", [tref, TypeRefmode(g, e)]);
      assert e in Children(g, t) && f.cols[|f.cols| - 1] == TypeRefmode(g, e);
  }

  lemma FunctionComponentsNamed(g: TypeGraph, dl: DataLayout, t: TypeId, f: Fact)
    requires Ty(g, t).kind.FunctionTy? && f in KindFacts(g, dl, t) && f.pred in ComponentPreds()
    ensures NamesComponent(g, t, f)
  {
    var k, tref := Ty(g, t).kind, TypeRefmode(g, t);
    FunctionComponent(tref, k.varArg, TypeRefmode(g, k.ret), ParamFacts(g, t, k.params), |k.params|, f);
    if f in ParamFacts(g, t, k.params) {
      ParamComponent(g, t, k.params, f);
      var i :| 0 <= i < |k.params| && f == Fact("func_type::param_type", [tref, NatToString(i), TypeRefmode(g, k.params[i])]);
      assert k.params[i] in Children(g, t) && f.cols[|f.cols| - 1] == TypeRefmode(g, k.params[i]);
    } else {
      assert k.ret in Children(g, t) && f.cols[|f.cols| - 1] == TypeRefmode(g, k.ret);
    }
  }

  lemma StructComponentsNamed(g: TypeGraph, dl: DataLayout, t: TypeId, f: Fact)
    requires Ty(g, t).kind.StructTy? && f in KindFacts(g, dl, t) && f.pred in ComponentPreds()
    ensures NamesComponent(g, t, f)
  {
    var k, tref := Ty(g, t).kind, TypeRefmode(g, t);
    StructComponent(tref, k.name, k.isOpaque, FieldFacts(g, dl, t, k.fields), |k.fields|, f);
    FieldComponent(g, dl, t, k.fields, f);
    var i :| 0 <= i < |k.fields| && f == Fact("struct_type::field_type", [tref, NatToString(i), TypeRefmode(g, k.fields[i])]);
    assert k.fields[i] in Children(g, t) && f.cols[|f.cols| - 1] == TypeRefmode(g, k.fields[i]);
  }

  // ---------------------------------------------------------------------
  // The visitor
  // ---------------------------------------------------------------------

  /** visitType: append the facts of `t`. Only the sink changes. */
  method VisitType(gen: FactGenerator, dl: DataLayout, t: TypeId)
    requires gen.Valid()
    modifies gen
    ensures gen.Valid() && gen.ctx == old(gen.ctx)
    ensures gen.St() == old(gen.St()).(facts := old(gen.facts) + TypeFacts(gen.graph, dl, t))
  {
    var g := gen.graph;
    var tref := TypeRefmode(g, t);
    if Ty(g, t).sized {
      gen.WriteFact("type::alloc_size", [tref, NatToString(dl.allocSize(t))]);
      gen.WriteFact("type::store_size", [tref, NatToString(dl.storeSize(t))]);
    }
    ghost var sizes := SizeFacts(tref, Ty(g, t).sized, dl.allocSize(t), dl.storeSize(t));
    assert gen.facts == old(gen.facts) + sizes;
    VisitKind(gen, dl, t);
    Assoc(old(gen.facts), sizes, KindFacts(g, dl, t));
  }

  /** The switch on the type's kind. */
  method VisitKind(gen: FactGenerator, dl: DataLayout, t: TypeId)
    requires gen.Valid()
    modifies gen
    ensures gen.Valid() && gen.ctx == old(gen.ctx)
    ensures gen.St() == old(gen.St()).(facts := old(gen.facts) + KindFacts(gen.graph, dl, t))
  {
    var g := gen.graph;
    var tref := TypeRefmode(g, t);
    match Ty(g, t).kind {
      case VoidTy => gen.WriteFact("primitive_type::id", [tref]);
      case LabelTy => gen.WriteFact("primitive_type::id", [tref]);
      case MetadataTy => gen.WriteFact("primitive_type::id", [tref]);
      case FloatingTy(_) => gen.WriteFact("fp_type::id", [tref]);
      case IntegerTy(_) => gen.WriteFact("integer_type::id", [tref]);
      case FunctionTy(r, ps, va) =>
        VisitFunctionType(gen, t);
        assert KindFacts(g, dl, t) == FunctionFacts(tref, va, TypeRefmode(g, r), ParamFacts(g, t, ps), |ps|);
      case StructTy(name, _, op, fs) =>
        VisitStructType(gen, dl, t);
        assert KindFacts(g, dl, t) == StructFacts(tref, name, op, FieldFacts(g, dl, t, fs), |fs|);
      case ArrayTy(e, n) =>
        VisitArrayType(gen, t);
        assert KindFacts(g, dl, t) == ArrayFacts(tref, TypeRefmode(g, e), n);
      case PointerTy(p, a) =>
        VisitPointerType(gen, t);
        assert KindFacts(g, dl, t) == PointerFacts(tref, a, if p.Some? then Some(TypeRefmode(g, p.value)) else None);
      case VectorTy(e, n) =>
        VisitVectorType(gen, t);
        assert KindFacts(g, dl, t) == VectorFacts(tref, n, TypeRefmode(g, e));
      case X86MmxTy =>
      case OtherTy(_) =>
    }
  }

  method VisitPointerType(gen: FactGenerator, t: TypeId)
    requires gen.Valid() && Ty(gen.graph, t).kind.PointerTy?
    modifies gen
    ensures gen.Valid() && gen.ctx == old(gen.ctx)
    ensures var k := Ty(gen.graph, t).kind;
      gen.St() == old(gen.St()).(facts := old(gen.facts) + PointerFacts(TypeRefmode(gen.graph, t), k.addrSpace,
        if k.pointee.Some? then Some(TypeRefmode(gen.graph, k.pointee.value)) else None))
  {
    var k, tref := Ty(gen.graph, t).kind, TypeRefmode(gen.graph, t);
    gen.WriteFact("ptr_type::id", [tref]);
    if k.addrSpace != 0 {
      gen.WriteFact("ptr_type::addr_space", [tref, NatToString(k.addrSpace)]);
    }
    if k.pointee.Some? {
      gen.WriteFact("ptr_type::component_type", [tref, TypeRefmode(gen.graph, k.pointee.value)]);
    }
  }

  method VisitArrayType(gen: FactGenerator, t: TypeId)
    requires gen.Valid() && Ty(gen.graph, t).kind.ArrayTy?
    modifies gen
    ensures gen.Valid() && gen.ctx == old(gen.ctx)
    ensures var k := Ty(gen.graph, t).kind;
      gen.St() == old(gen.St()).(facts := old(gen.facts) + ArrayFacts(TypeRefmode(gen.graph, t), TypeRefmode(gen.graph, k.elem), k.count))
  {
    var k, tref := Ty(gen.graph, t).kind, TypeRefmode(gen.graph, t);
    gen.WriteFact("array_type::id", [tref]);
    gen.WriteFact("array_type::component_type", [tref, TypeRefmode(gen.graph, k.elem)]);
    gen.WriteFact("array_type::size", [tref, NatToString(k.count)]);
  }

  method VisitStructType(gen: FactGenerator, dl: DataLayout, t: TypeId)
    requires gen.Valid() && Ty(gen.graph, t).kind.StructTy?
    modifies gen
    ensures gen.Valid() && gen.ctx == old(gen.ctx)
    ensures var k := Ty(gen.graph, t).kind;
      gen.St() == old(gen.St()).(facts := old(gen.facts)
        + StructFacts(TypeRefmode(gen.graph, t), k.name, k.isOpaque, FieldFacts(gen.graph, dl, t, k.fields), |k.fields|))
  {
    var k, tref := Ty(gen.graph, t).kind, TypeRefmode(gen.graph, t);
    ghost var head := [Fact("struct_type::id", [tref])] + When(|k.name| > 0, Fact("struct_type::has_name", [tref, k.name]));
    gen.WriteFact("struct_type::id", [tref]);
    if |k.name| > 0 {
      gen.WriteFact("struct_type::has_name", [tref, k.name]);
    }
    assert gen.facts == old(gen.facts) + head;
    ghost var tail;
    if k.isOpaque {
      gen.WriteFact("struct_type::opaque", [tref]);
      tail := [Fact("struct_type::opaque", [tref])];
    } else {
      WriteFields(gen, dl, t);
      gen.WriteFact("struct_type::nfields", [tref, NatToString(|k.fields|)]);
      tail := FieldFacts(gen.graph, dl, t, k.fields) + [Fact("struct_type::nfields", [tref, NatToString(|k.fields|)])];
    }
    assert gen.facts == old(gen.facts) + head + tail;
    Assoc(old(gen.facts), head, tail);
  }

  /** The loop over the fields of a non-opaque struct. */
  method WriteFields(gen: FactGenerator, dl: DataLayout, t: TypeId)
    requires gen.Valid() && Ty(gen.graph, t).kind.StructTy?
    modifies gen
    ensures gen.Valid() && gen.ctx == old(gen.ctx)
    ensures gen.St() == old(gen.St()).(facts := old(gen.facts) + FieldFacts(gen.graph, dl, t, Ty(gen.graph, t).kind.fields))
  {
    var fs := Ty(gen.graph, t).kind.fields;
    var i := 0;
    while i < |fs|
      invariant i <= |fs| && gen.Valid() && gen.ctx == old(gen.ctx)
      invariant gen.St() == old(gen.St()).(facts := old(gen.facts) + Rows(FieldRows(gen.graph, dl, t, fs), i))
    {
      WriteField(gen, dl, t, fs, i);
      RowsStep(FieldRows(gen.graph, dl, t, fs), i, old(gen.facts), FieldRow(gen.graph, dl, t, fs, i));
      i := i + 1;
    }
  }

  /** Field i's type, offset and bit offset. */
  method WriteField(gen: FactGenerator, dl: DataLayout, t: TypeId, fs: seq<TypeId>, i: nat)
    requires gen.Valid() && i < |fs|
    modifies gen
    ensures gen.Valid() && gen.ctx == old(gen.ctx)
    ensures gen.St() == old(gen.St()).(facts := old(gen.facts) + FieldRow(gen.graph, dl, t, fs, i))
  {
    var tref, ix := TypeRefmode(gen.graph, t), NatToString(i);
    gen.WriteFact("struct_type::field_type", [tref, ix, TypeRefmode(gen.graph, fs[i])]);
    gen.WriteFact("struct_type::field_offset", [tref, ix, NatToString(dl.elementOffset(t, i))]);
    gen.WriteFact("struct_type::field_bit_offset", [tref, ix, NatToString(dl.elementOffsetInBits(t, i))]);
  }

  method VisitFunctionType(gen: FactGenerator, t: TypeId)
    requires gen.Valid() && Ty(gen.graph, t).kind.FunctionTy?
    modifies gen
    ensures gen.Valid() && gen.ctx == old(gen.ctx)
    ensures var k := Ty(gen.graph, t).kind;
      gen.St() == old(gen.St()).(facts := old(gen.facts)
        + FunctionFacts(TypeRefmode(gen.graph, t), k.varArg, TypeRefmode(gen.graph, k.ret), ParamFacts(gen.graph, t, k.params), |k.params|))
  {
    var k, tref := Ty(gen.graph, t).kind, TypeRefmode(gen.graph, t);
    ghost var head := [Fact("func_type::id", [tref])] + When(k.varArg, Fact("func_type::varargs", [tref]))
      + [Fact("func_type::return_type", [tref, TypeRefmode(gen.graph, k.ret)])];
    gen.WriteFact("func_type::id", [tref]);
    if k.varArg {
      gen.WriteFact("func_type::varargs", [tref]);
    }
    gen.WriteFact("func_type::return_type", [tref, TypeRefmode(gen.graph, k.ret)]);
    assert gen.facts == old(gen.facts) + head;
    WriteParams(gen, t);
    gen.WriteFact("func_type::nparams", [tref, NatToString(|k.params|)]);
    ghost var tail := ParamFacts(gen.graph, t, k.params) + [Fact("func_type::nparams", [tref, NatToString(|k.params|)])];
    assert gen.facts == old(gen.facts) + head + tail;
    Assoc(old(gen.facts), head, tail);
  }

  /** The loop over the parameters of a function type. */
  method WriteParams(gen: FactGenerator, t: TypeId)
    requires gen.Valid() && Ty(gen.graph, t).kind.FunctionTy?
    modifies gen
    ensures gen.Valid() && gen.ctx == old(gen.ctx)
    ensures gen.St() == old(gen.St()).(facts := old(gen.facts) + ParamFacts(gen.graph, t, Ty(gen.graph, t).kind.params))
  {
    var tref, ps := TypeRefmode(gen.graph, t), Ty(gen.graph, t).kind.params;
    var i := 0;
    while i < |ps|
      invariant i <= |ps| && gen.Valid() && gen.ctx == old(gen.ctx)
      invariant gen.St() == old(gen.St()).(facts := old(gen.facts) + Rows(ParamRows(gen.graph, t, ps), i))
    {
      var f := Fact("func_type::param_type", [tref, NatToString(i), TypeRefmode(gen.graph, ps[i])]);
      gen.WriteFact(f.pred, f.cols);
      RowsStep(ParamRows(gen.graph, t, ps), i, old(gen.facts), [f]);
      i := i + 1;
    }
  }

  method VisitVectorType(gen: FactGenerator, t: TypeId)
    requires gen.Valid() && Ty(gen.graph, t).kind.VectorTy?
    modifies gen
    ensures gen.Valid() && gen.ctx == old(gen.ctx)
    ensures var k := Ty(gen.graph, t).kind;
      gen.St() == old(gen.St()).(facts := old(gen.facts) + VectorFacts(TypeRefmode(gen.graph, t), k.fixedCount, TypeRefmode(gen.graph, k.elem)))
  {
    var k, tref := Ty(gen.graph, t).kind, TypeRefmode(gen.graph, t);
    if k.fixedCount.Some? {
      gen.WriteFact("vector_type::size", [tref, NatToString(k.fixedCount.value)]);
    }
    gen.WriteFact("vector_type::id", [tref]);
    gen.WriteFact("vector_type::component_type", [tref, TypeRefmode(gen.graph, k.elem)]);
  }
}
