// writeConstant: the facts for a constant operand and, recursively, for the
// constants it is built from. Every nested constant takes its own slot of
// the current instruction's constant counter.
module Constants {
  import opened Common
  import opened Llvm
  import opened Contexts
  import opened Refmodes
  import opened Generator

  // ---------------------------------------------------------------------
  // The specification
  // ---------------------------------------------------------------------

  /** The operands writeConstant may descend into: those of a constant
      expression, an array, a struct or a vector. */
  function Operands(c: Value): (r: seq<Value>)
    ensures forall i :: 0 <= i < |r| ==> r[i] < c
  {
    if !c.kind.ConstantV? then []
    else match c.kind.c
      case ExprC(_, ops) => ops
      case ArrayC(elems) => elems
      case StructC(elems) => elems
      case VectorC(elems) => elems
      case _ => []
  }

  /** The casts whose operand is written as a constant of its own, with the
      two predicates they use: the kind id and the operand link. */
  function CastPreds(k: CastOp): Option<(string, string)> {
    match k
    case BitCast => Some(("bitcast_constant_expr::id", "bitcast_constant_expr::from_constant"))
    case IntToPtr => Some(("inttoptr_constant_expr::id", "inttoptr_constant_expr::from_int_constant"))
    case PtrToInt => Some(("ptrtoint_constant_expr::id", "ptrtoint_constant_expr::from_ptr_constant"))
    case _ => None
  }

  /** The three aggregate groups writeConstantWithOperands serves. */
  datatype Aggregate = ArrayG | StructG | VectorG

  function IndexPred(a: Aggregate): string {
    match a
    case ArrayG => "constant_array::index"
    case StructG => "constant_struct::index"
    case VectorG => "constant_vector::index"
  }

  function SizePred(a: Aggregate): string {
    match a
    case ArrayG => "constant_array::size"
    case StructG => "constant_struct::size"
    case VectorG => "constant_vector::size"
  }

  function AggregateIdPred(a: Aggregate): string {
    match a
    case ArrayG => "constant_array::id"
    case StructG => "constant_struct::id"
    case VectorG => "constant_vector::id"
  }

  /** Every predicate writeConstant writes to. */
  function ConstantPreds(): set<string> {
    {"constant::id", "constant::type", "constant::in_func", "constant::value", "constant::hash",
     "constant::to_integer", "nullptr_constant::id", "integer_constant::id", "fp_constant::id",
     "func_constant::id", "func_constant::name", "global_var_constant::id",
     "global_var_constant::name", "constant_expr::id", "undef_constant::id",
     "bitcast_constant_expr::id", "bitcast_constant_expr::from_constant",
     "inttoptr_constant_expr::id", "inttoptr_constant_expr::from_int_constant",
     "ptrtoint_constant_expr::id", "ptrtoint_constant_expr::from_ptr_constant",
     "gep_constant_expr::base", "gep_constant_expr::index", "gep_constant_expr::nindices",
     "gep_constant_expr::id",
     "constant_array::index", "constant_array::size", "constant_array::id",
     "constant_struct::index", "constant_struct::size", "constant_struct::id",
     "constant_vector::index", "constant_vector::size", "constant_vector::id"}
  }

  lemma AggregatePreds(a: Aggregate)
    ensures IndexPred(a) != "constant::id" && SizePred(a) != "constant::id" && AggregateIdPred(a) != "constant::id"
    ensures IndexPred(a) in ConstantPreds() && SizePred(a) in ConstantPreds() && AggregateIdPred(a) in ConstantPreds()
  {
  }

  lemma CastPredsIn(k: CastOp)
    requires CastPreds(k).Some?
    ensures CastPreds(k).value.0 in ConstantPreds() - {"constant::id"}
    ensures CastPreds(k).value.1 in ConstantPreds() - {"constant::id"}
  {
  }

  /** The part of writeConstant before the kind chain: a fresh slot refmode
      and the constant::id fact, then the constant's attributes. */
  function ConstantHeader(g: TypeGraph, h: Host, s: GenState, c: Value): (string, GenState) {
    var (id, s) := ConstantRef(g, s, c);
    var s := Emit(s, "constant::id", [id]);
    (id, ConstantAttrs(g, h, s, c, id))
  }

  /** The constant::type fact with the type recorded; the result-map entry
      for the id; constant::in_func when a function frame is active; the
      value and hash facts over the printed operand; the result-map entry for
      the printed text. */
  function ConstantAttrs(g: TypeGraph, h: Host, s: GenState, c: Value, id: string): GenState {
    var (tr, s) := RecordTy(g, s, c.ty);
    var s := Emit(s, "constant::type", [id, tr]);
    var s := AddResult(s, id, c.id);
    var s := match ActiveFunction(s.ctx)
      case Some(f) => Emit(s, "constant::in_func", [id, "@" + f.self.name])
      case None => s;
    var val := c.printed;
    var s := Emit(s, "constant::value", [id, val]);
    var s := Emit(s, "constant::hash", [id, NatToString(h.hash(val))]);
    AddResult(s, val, c.id)
  }

  /** writeConstant on the state: the header, then the facts of the first
      matching kind. */
  function WriteConstant(g: TypeGraph, h: Host, s: GenState, c: Value): (r: (string, GenState))
    decreases c, 3
  {
    var (id, s) := ConstantHeader(g, h, s, c);
    (id, KindFacts(g, h, s, c, id))
  }

  /** The kind chain of writeConstant, first match wins: null pointer, int
      (with its unsigned value when it fits in 16 bits), fp, function, global
      variable, constant expression, array, struct, vector, undef. */
  function KindFacts(g: TypeGraph, h: Host, s: GenState, c: Value, id: string): GenState
    decreases c, 2
  {
    if !c.kind.ConstantV? then s
    else match c.kind.c
      case NullPtrC => Emit(s, "nullptr_constant::id", [id])
      case IntC(u) =>
        var s := Emit(s, "integer_constant::id", [id]);
        if u < 0x1_0000 then Emit(s, "constant::to_integer", [id, NatToString(u)]) else s
      case FpC => Emit(s, "fp_constant::id", [id])
      case FunctionC =>
        Emit(Emit(s, "func_constant::id", [id]), "func_constant::name", [id, "@" + c.name])
      case GlobalVarC =>
        Emit(Emit(s, "global_var_constant::id", [id]), "global_var_constant::name", [id, "@" + c.name])
      case ExprC(_, _) => ExprFacts(g, h, Emit(s, "constant_expr::id", [id]), c, id)
      case ArrayC(_) => WithOperands(g, h, s, c, id, ArrayG)
      case StructC(_) => WithOperands(g, h, s, c, id, StructG)
      case VectorC(_) => WithOperands(g, h, s, c, id, VectorG)
      case UndefC => Emit(s, "undef_constant::id", [id])
      case AliasC => s
      case OtherC => s
  }

  /** writeConstantExpr after its constant_expr::id fact: bitcast, inttoptr
      and ptrtoint write their operand and link it; a GEP writes every
      operand (base, then indices), the index count and its id; any other
      expression writes nothing more. */
  function ExprFacts(g: TypeGraph, h: Host, s: GenState, c: Value, id: string): GenState
    requires c.kind.ConstantV? && c.kind.c.ExprC?
    decreases c, 1
  {
    match c.kind.c.op
    case CastE(k) => CastFacts(g, h, s, c, id, k)
    case GepE => GepFacts(g, h, s, c, id)
    case OtherE(_) => s
  }

  function CastFacts(g: TypeGraph, h: Host, s: GenState, c: Value, id: string, k: CastOp): GenState
    decreases c, 0
  {
    if CastPreds(k).Some? && |Operands(c)| > 0 then
      var (idPred, linkPred) := CastPreds(k).value;
      var (opref, s) := WriteConstant(g, h, s, Operands(c)[0]);
      Emit(Emit(s, idPred, [id]), linkPred, [id, opref])
    else s
  }

  function GepFacts(g: TypeGraph, h: Host, s: GenState, c: Value, id: string): GenState
    decreases c, 0
  {
    var n := |Operands(c)|;
    var s := GepOperands(g, h, s, c, id, n);
    var s := Emit(s, "gep_constant_expr::nindices", [id, NatToString(PrevIndex(n))]);
    Emit(s, "gep_constant_expr::id", [id])
  }

  /** The first n rounds of the GEP operand loop. */
  function GepOperands(g: TypeGraph, h: Host, s: GenState, c: Value, id: string, n: nat): GenState
    requires n <= |Operands(c)|
    decreases c, 0, n
  {
    if n == 0 then s
    else
      OperandStep(g, h, GepOperands(g, h, s, c, id, n - 1), Operands(c)[n - 1], GepLinkPred(n - 1), GepLinkCols(id, n - 1))
  }

  /** One round of an operand loop: the operand's constant facts, then the
      fact linking it, whose last column is the operand's refmode. */
  function OperandStep(g: TypeGraph, h: Host, s: GenState, op: Value, pred: string, cols: seq<string>): GenState
    decreases op, 4
  {
    var (r, s) := WriteConstant(g, h, s, op);
    Emit(s, pred, cols + [r])
  }

  /** Operand 0 is the base; operand k > 0 is index k - 1. */
  function GepLinkPred(k: nat): string {
    if k > 0 then "gep_constant_expr::index" else "gep_constant_expr::base"
  }

  lemma GepLinkPredIn(k: nat)
    ensures GepLinkPred(k) != "constant::id" && GepLinkPred(k) in ConstantPreds()
  {
  }

  function GepLinkCols(id: string, k: nat): seq<string> {
    if k > 0 then [id, NatToString(k - 1)] else [id]
  }

  /** writeConstantWithOperands: operand i at index i, then size and id. */
  function WithOperands(g: TypeGraph, h: Host, s: GenState, c: Value, id: string, a: Aggregate): GenState
    decreases c, 1
  {
    var n := |Operands(c)|;
    var s := OperandFacts(g, h, s, c, id, IndexPred(a), n);
    Emit(Emit(s, SizePred(a), [id, NatToString(n)]), AggregateIdPred(a), [id])
  }

  /** The first n rounds of the aggregate operand loop. */
  function OperandFacts(g: TypeGraph, h: Host, s: GenState, c: Value, id: string, ip: string, n: nat): GenState
    requires n <= |Operands(c)|
    decreases c, 0, n
  {
    if n == 0 then s
    else
      OperandStep(g, h, OperandFacts(g, h, s, c, id, ip, n - 1), Operands(c)[n - 1], ip, [id, NatToString(n - 1)])
  }

  // ---------------------------------------------------------------------
  // How many constants one call writes
  // ---------------------------------------------------------------------

  /** The number of constants writeConstant(c) writes: c itself and,
      recursively, the operands the kind chain descends into. An independent
      count over the constant tree. */
  function Written(c: Value): nat
    decreases c, 1
  {
    1 + (if !c.kind.ConstantV? then 0
         else match c.kind.c
           case ExprC(CastE(k), ops) => if CastPreds(k).Some? && |ops| > 0 then Written(Operands(c)[0]) else 0
           case ExprC(GepE, _) => WrittenAll(c, |Operands(c)|)
           case ExprC(OtherE(_), _) => 0
           case ArrayC(_) => WrittenAll(c, |Operands(c)|)
           case StructC(_) => WrittenAll(c, |Operands(c)|)
           case VectorC(_) => WrittenAll(c, |Operands(c)|)
           case _ => 0)
  }

  function WrittenAll(c: Value, n: nat): nat
    requires n <= |Operands(c)|
    decreases c, 0, n
  {
    if n == 0 then 0 else WrittenAll(c, n - 1) + Written(Operands(c)[n - 1])
  }

  // ---------------------------------------------------------------------
  // The constants written carry consecutive slots
  // ---------------------------------------------------------------------

  /** The ids of the constant::id facts, in order. */
  function ConstantIds(fs: seq<Fact>): seq<string> {
    if |fs| == 0 then []
    else ConstantIds(fs[..|fs| - 1])
         + (var f := fs[|fs| - 1]; if f.pred == "constant::id" && |f.cols| > 0 then [f.cols[0]] else [])
  }

  lemma {:induction false} ConstantIdsAppend(a: seq<Fact>, b: seq<Fact>)
    ensures ConstantIds(a + b) == ConstantIds(a) + ConstantIds(b)
    decreases |b|
  {
    if |b| > 0 {
      var b' := b[..|b| - 1];
      assert (a + b)[..|a + b| - 1] == a + b';
      ConstantIdsAppend(a, b');
    } else {
      assert a + b == a;
    }
  }

  /** `id` starts with the prefix, the slot number k and ':'. */
  predicate SlotPrefixed(id: string, pre: string, k: nat) {
    var p := pre + NatToString(k) + ":";
    |p| <= |id| && id[..|p|] == p
  }

  /** The i-th id carries slot base+i after the prefix. */
  predicate SlotIds(ids: seq<string>, pre: string, base: nat) {
    forall i :: 0 <= i < |ids| ==> SlotPrefixed(ids[i], pre, base + i)
  }

  lemma SlotIdsAppend(a: seq<string>, b: seq<string>, pre: string, base: nat)
    requires SlotIds(a, pre, base) && SlotIds(b, pre, base + |a|)
    ensures SlotIds(a + b, pre, base)
  {
    forall i | 0 <= i < |a + b|
      ensures SlotPrefixed((a + b)[i], pre, base + i)
    {
      if i >= |a| {
        assert (a + b)[i] == b[i - |a|];
      }
    }
  }

  /** Ids that carry different slots after the same prefix differ. */
  lemma SlotPrefixedDistinct(id1: string, id2: string, pre: string, k1: nat, k2: nat)
    requires SlotPrefixed(id1, pre, k1) && SlotPrefixed(id2, pre, k2) && k1 != k2
    ensures id1 != id2
  {
    var p1 := pre + NatToString(k1) + ":";
    var p2 := pre + NatToString(k2) + ":";
    if id1 == id2 {
      var x1 := id1[|p1|..];
      var x2 := id2[|p2|..];
      assert id1 == p1 + x1;
      assert id2 == p2 + x2;
      assert id1[|pre|..] == NatToString(k1) + [':'] + x1;
      assert id2[|pre|..] == NatToString(k2) + [':'] + x2;
      NumberThenSeparator(k1, k2, ':', x1, x2);
    }
  }

  /** The facts appended between s and u. */
  function Added(s: GenState, u: GenState): seq<Fact>
    requires |s.facts| <= |u.facts|
  {
    u.facts[|s.facts|..]
  }

  /** From s to u: facts are only appended, the frames are the same, the
      variable cache is untouched, types are only added, and the n
      constant::id facts appended carry the slots s.constantIndex,
      s.constantIndex+1, … after the instruction-qualified prefix, which is
      where the counter ends. */
  ghost predicate Advance(s: GenState, u: GenState, n: nat) {
    && |s.facts| <= |u.facts| && u.facts[..|s.facts|] == s.facts
    && SameFrames(s.ctx, u.ctx)
    && u.ctx.constantIndex == s.ctx.constantIndex + n
    && u.vars == s.vars
    && s.types <= u.types
    && |ConstantIds(Added(s, u))| == n
    && (forall f :: f in Added(s, u) ==> f.pred in ConstantPreds())
    && SlotIds(ConstantIds(Added(s, u)), WithContext(s.ctx.contexts, InstructionT), s.ctx.constantIndex)
  }

  lemma AdvanceTrans(s: GenState, s1: GenState, s2: GenState, n1: nat, n2: nat)
    requires Advance(s, s1, n1) && Advance(s1, s2, n2)
    ensures Advance(s, s2, n1 + n2)
  {
    var a, b := Added(s, s1), Added(s1, s2);
    AddedSplit(s.facts, s1.facts, s2.facts);
    assert Added(s, s2) == a + b;
    ConstantPredsAppend(a, b);
    ConstantIdsAppend(a, b);
    SameFramesTrans(s.ctx, s1.ctx, s2.ctx);
    WithContextShape(s.ctx.contexts, s1.ctx.contexts, InstructionT);
    SlotIdsAppend(ConstantIds(a), ConstantIds(b), WithContext(s.ctx.contexts, InstructionT), s.ctx.constantIndex);
  }

  lemma SameFramesTrans(a: CtxState, b: CtxState, c: CtxState)
    requires SameFrames(a, b) && SameFrames(b, c)
    ensures SameFrames(a, c)
  {
  }

  /** Two appends in a row are one append. */
  lemma AddedSplit(a: seq<Fact>, b: seq<Fact>, c: seq<Fact>)
    requires |a| <= |b| <= |c| && b[..|a|] == a && c[..|b|] == b
    ensures c[..|a|] == a && c[|a|..] == b[|a|..] + c[|b|..]
  {
    assert c[..|a|] == c[..|b|][..|a|];
  }

  lemma ConstantPredsAppend(a: seq<Fact>, b: seq<Fact>)
    requires forall f :: f in a ==> f.pred in ConstantPreds()
    requires forall f :: f in b ==> f.pred in ConstantPreds()
    ensures forall f :: f in a + b ==> f.pred in ConstantPreds()
  {
  }

  /** Facts that are not constant::id facts append no constant id. */
  lemma ConstantIdsNone(fs: seq<Fact>)
    requires forall i :: 0 <= i < |fs| ==> fs[i].pred != "constant::id"
    ensures ConstantIds(fs) == []
  {
    if |fs| > 0 {
      ConstantIdsNone(fs[..|fs| - 1]);
    }
  }

  /** Appending facts of other predicates, recording types and inserting
      results advance nothing. */
  lemma AdvanceQuiet(s: GenState, u: GenState)
    requires |s.facts| <= |u.facts| && u.facts[..|s.facts|] == s.facts
    requires forall f :: f in Added(s, u) ==> f.pred != "constant::id" && f.pred in ConstantPreds()
    requires u.ctx == s.ctx && u.vars == s.vars && s.types <= u.types
    ensures Advance(s, u, 0)
  {
    ConstantIdsNone(Added(s, u));
  }

  lemma AdvanceEmit(s: GenState, pred: string, cols: seq<string>)
    requires pred != "constant::id" && pred in ConstantPreds()
    ensures Advance(s, Emit(s, pred, cols), 0)
  {
    AdvanceQuiet(s, Emit(s, pred, cols));
  }

  lemma AdvanceEmit2(s: GenState, p1: string, c1: seq<string>, p2: string, c2: seq<string>)
    requires p1 != "constant::id" && p2 != "constant::id" && p1 in ConstantPreds() && p2 in ConstantPreds()
    ensures Advance(s, Emit(Emit(s, p1, c1), p2, c2), 0)
  {
    AdvanceQuiet(s, Emit(Emit(s, p1, c1), p2, c2));
  }

  /** The header takes one slot and writes one constant id, its own. */
  lemma HeaderAdvance(g: TypeGraph, h: Host, s: GenState, c: Value)
    ensures Advance(s, ConstantHeader(g, h, s, c).1, 1)
    ensures SlotPrefixed(ConstantHeader(g, h, s, c).0, WithContext(s.ctx.contexts, InstructionT), s.ctx.constantIndex)
  {
    var (id, s1) := ConstantRef(g, s, c);
    var s2 := Emit(s1, "constant::id", [id]);
    HeadAdvance(g, s, c);
    AttrsQuiet(g, h, s2, c, id);
    AdvanceTrans(s, s2, ConstantAttrs(g, h, s2, c, id), 1, 0);
  }

  /** The refmode and the constant::id fact. */
  lemma HeadAdvance(g: TypeGraph, s: GenState, c: Value)
    ensures Advance(s, Emit(ConstantRef(g, s, c).1, "constant::id", [ConstantRef(g, s, c).0]), 1)
    ensures SlotPrefixed(ConstantRef(g, s, c).0, WithContext(s.ctx.contexts, InstructionT), s.ctx.constantIndex)
  {
    var (id, s1) := ConstantRef(g, s, c);
    ConstantRefSlot(g, s, c);
    ConstantRefmodeParts(g, s.ctx, c);
    OneSlot(s, s1, id);
  }

  /** Taking one slot whose id is written next advances by one. */
  lemma OneSlot(s: GenState, s1: GenState, id: string)
    requires s1 == s.(ctx := s1.ctx) && SameFrames(s.ctx, s1.ctx)
    requires s1.ctx.constantIndex == s.ctx.constantIndex + 1
    requires SlotPrefixed(id, WithContext(s.ctx.contexts, InstructionT), s.ctx.constantIndex)
    ensures Advance(s, Emit(s1, "constant::id", [id]), 1)
  {
    var s2 := Emit(s1, "constant::id", [id]);
    assert Added(s, s2) == [Fact("constant::id", [id])];
    assert ConstantIds([Fact("constant::id", [id])]) == ConstantIds([]) + [id];
    assert SlotIds([id], WithContext(s.ctx.contexts, InstructionT), s.ctx.constantIndex);
  }

  /** A constant refmode carries the current slot. */
  lemma ConstantRefSlot(g: TypeGraph, s: GenState, c: Value)
    ensures SlotPrefixed(ConstantRef(g, s, c).0, WithContext(s.ctx.contexts, InstructionT), s.ctx.constantIndex)
  {
    ConstantRefmodeParts(g, s.ctx, c);
    SlotPrefixedOf(WithContext(s.ctx.contexts, InstructionT), s.ctx.constantIndex, RefmodeOf(g, NextConstant(s.ctx).1, c).0);
  }

  lemma SlotPrefixedOf(pre: string, k: nat, txt: string)
    ensures SlotPrefixed(pre + (NatToString(k) + ":" + txt), pre, k)
  {
    var p := pre + NatToString(k) + ":";
    assert pre + (NatToString(k) + ":" + txt) == p + txt;
  }

  lemma AttrsQuiet(g: TypeGraph, h: Host, s: GenState, c: Value, id: string)
    ensures Advance(s, ConstantAttrs(g, h, s, c, id), 0)
  {
    var u := ConstantAttrs(g, h, s, c, id);
    AttrsShape(g, h, s, c, id);
    assert Added(s, u) == ConstantAttrFacts(g, h, s, c, id);
    AdvanceQuiet(s, u);
  }

  /** The facts of the attribute part, in order. */
  function ConstantAttrFacts(g: TypeGraph, h: Host, s: GenState, c: Value, id: string): seq<Fact> {
    [Fact("constant::type", [id, TypeRefmode(g, c.ty)])]
    + (match ActiveFunction(s.ctx)
       case Some(f) => [Fact("constant::in_func", [id, "@" + f.self.name])]
       case None => [])
    + [Fact("constant::value", [id, c.printed]),
       Fact("constant::hash", [id, NatToString(h.hash(c.printed))])]
  }

  lemma AttrsShape(g: TypeGraph, h: Host, s: GenState, c: Value, id: string)
    ensures var u := ConstantAttrs(g, h, s, c, id);
      && u.facts == s.facts + ConstantAttrFacts(g, h, s, c, id)
      && u.ctx == s.ctx && u.vars == s.vars && s.types <= u.types
  {
  }

  /** writeConstant(c) writes Written(c) constants whose ids carry the
      consecutive slots from the current counter on, and its own id is the
      first of them. */
  lemma {:induction false} WriteConstantAdvance(g: TypeGraph, h: Host, s: GenState, c: Value)
    ensures Advance(s, WriteConstant(g, h, s, c).1, Written(c))
    ensures SlotPrefixed(WriteConstant(g, h, s, c).0, WithContext(s.ctx.contexts, InstructionT), s.ctx.constantIndex)
    decreases c, 3
  {
    var (id, s1) := ConstantHeader(g, h, s, c);
    HeaderAdvance(g, h, s, c);
    KindFactsAdvance(g, h, s1, c, id);
    AdvanceTrans(s, s1, KindFacts(g, h, s1, c, id), 1, Written(c) - 1);
  }

  lemma {:induction false} KindFactsAdvance(g: TypeGraph, h: Host, s: GenState, c: Value, id: string)
    ensures Advance(s, KindFacts(g, h, s, c, id), Written(c) - 1)
    decreases c, 2
  {
    var u := KindFacts(g, h, s, c, id);
    if !c.kind.ConstantV? {
      AdvanceQuiet(s, u);
    } else if IsScalar(c.kind.c) {
      ScalarKindAdvance(g, h, s, c, id);
    } else {
      match c.kind.c
      case ExprC(_, _) =>
        var s1 := Emit(s, "constant_expr::id", [id]);
        AdvanceEmit(s, "constant_expr::id", [id]);
        ExprFactsAdvance(g, h, s1, c, id);
        AdvanceTrans(s, s1, u, 0, Written(c) - 1);
      case ArrayC(_) => WithOperandsAdvance(g, h, s, c, id, ArrayG);
      case StructC(_) => WithOperandsAdvance(g, h, s, c, id, StructG);
      case VectorC(_) => WithOperandsAdvance(g, h, s, c, id, VectorG);
      case AliasC => AdvanceQuiet(s, u);
      case OtherC => AdvanceQuiet(s, u);
    }
  }

  /** The kinds that write no operand. */
  predicate IsScalar(k: ConstantKind) {
    k.NullPtrC? || k.IntC? || k.FpC? || k.FunctionC? || k.GlobalVarC? || k.UndefC?
  }

  lemma ScalarKindAdvance(g: TypeGraph, h: Host, s: GenState, c: Value, id: string)
    requires c.kind.ConstantV? && IsScalar(c.kind.c)
    ensures Advance(s, KindFacts(g, h, s, c, id), Written(c) - 1)
  {
    match c.kind.c
    case NullPtrC => AdvanceEmit(s, "nullptr_constant::id", [id]);
    case IntC(n) =>
      if n < 0x1_0000 {
        AdvanceEmit2(s, "integer_constant::id", [id], "constant::to_integer", [id, NatToString(n)]);
      } else {
        AdvanceEmit(s, "integer_constant::id", [id]);
      }
    case FpC => AdvanceEmit(s, "fp_constant::id", [id]);
    case FunctionC =>
      AdvanceEmit2(s, "func_constant::id", [id], "func_constant::name", [id, "@" + c.name]);
    case GlobalVarC =>
      AdvanceEmit2(s, "global_var_constant::id", [id], "global_var_constant::name", [id, "@" + c.name]);
    case UndefC => AdvanceEmit(s, "undef_constant::id", [id]);
  }

  lemma {:induction false} ExprFactsAdvance(g: TypeGraph, h: Host, s: GenState, c: Value, id: string)
    requires c.kind.ConstantV? && c.kind.c.ExprC?
    ensures Advance(s, ExprFacts(g, h, s, c, id), Written(c) - 1)
    decreases c, 1
  {
    match c.kind.c.op
    case CastE(k) => CastFactsAdvance(g, h, s, c, id, k);
    case GepE => GepFactsAdvance(g, h, s, c, id);
    case OtherE(_) => AdvanceQuiet(s, s);
  }

  lemma {:induction false} CastFactsAdvance(g: TypeGraph, h: Host, s: GenState, c: Value, id: string, k: CastOp)
    requires c.kind.ConstantV? && c.kind.c.ExprC? && c.kind.c.op == CastE(k)
    ensures Advance(s, CastFacts(g, h, s, c, id, k), Written(c) - 1)
    decreases c, 0
  {
    var u := CastFacts(g, h, s, c, id, k);
    if CastPreds(k).Some? && |Operands(c)| > 0 {
      var (idPred, linkPred) := CastPreds(k).value;
      var (opref, s1) := WriteConstant(g, h, s, Operands(c)[0]);
      WriteConstantAdvance(g, h, s, Operands(c)[0]);
      CastPredsIn(k);
      AdvanceEmit2(s1, idPred, [id], linkPred, [id, opref]);
      AdvanceTrans(s, s1, u, Written(Operands(c)[0]), 0);
    } else {
      AdvanceQuiet(s, u);
    }
  }

  lemma {:induction false} GepFactsAdvance(g: TypeGraph, h: Host, s: GenState, c: Value, id: string)
    requires c.kind.ConstantV? && c.kind.c.ExprC? && c.kind.c.op == GepE
    ensures Advance(s, GepFacts(g, h, s, c, id), Written(c) - 1)
    decreases c, 0
  {
    var n := |Operands(c)|;
    var s1 := GepOperands(g, h, s, c, id, n);
    GepOperandsAdvance(g, h, s, c, id, n);
    AdvanceEmit2(s1, "gep_constant_expr::nindices", [id, NatToString(PrevIndex(n))], "gep_constant_expr::id", [id]);
    AdvanceTrans(s, s1, GepFacts(g, h, s, c, id), WrittenAll(c, n), 0);
  }

  lemma {:induction false} GepOperandsAdvance(g: TypeGraph, h: Host, s: GenState, c: Value, id: string, n: nat)
    requires n <= |Operands(c)|
    ensures Advance(s, GepOperands(g, h, s, c, id, n), WrittenAll(c, n))
    decreases c, 0, n
  {
    if n == 0 {
      AdvanceQuiet(s, s);
    } else {
      GepOperandsAdvance(g, h, s, c, id, n - 1);
      GepLinkPredIn(n - 1);
      WriteThenLink(g, h, s, GepOperands(g, h, s, c, id, n - 1), Operands(c)[n - 1],
                    WrittenAll(c, n - 1), GepLinkPred(n - 1), GepLinkCols(id, n - 1));
    }
  }

  lemma {:induction false} WithOperandsAdvance(g: TypeGraph, h: Host, s: GenState, c: Value, id: string, a: Aggregate)
    requires c.kind.ConstantV? && (c.kind.c.ArrayC? || c.kind.c.StructC? || c.kind.c.VectorC?)
    ensures Advance(s, WithOperands(g, h, s, c, id, a), Written(c) - 1)
    decreases c, 1
  {
    var n := |Operands(c)|;
    var s1 := OperandFacts(g, h, s, c, id, IndexPred(a), n);
    AggregatePreds(a);
    OperandFactsAdvance(g, h, s, c, id, IndexPred(a), n);
    AggregatePreds(a);
    AdvanceEmit2(s1, SizePred(a), [id, NatToString(n)], AggregateIdPred(a), [id]);
    AdvanceTrans(s, s1, WithOperands(g, h, s, c, id, a), WrittenAll(c, n), 0);
  }

  lemma {:induction false} OperandFactsAdvance(g: TypeGraph, h: Host, s: GenState, c: Value, id: string, ip: string, n: nat)
    requires n <= |Operands(c)| && ip != "constant::id" && ip in ConstantPreds()
    ensures Advance(s, OperandFacts(g, h, s, c, id, ip, n), WrittenAll(c, n))
    decreases c, 0, n
  {
    if n == 0 {
      AdvanceQuiet(s, s);
    } else {
      OperandFactsAdvance(g, h, s, c, id, ip, n - 1);
      WriteThenLink(g, h, s, OperandFacts(g, h, s, c, id, ip, n - 1), Operands(c)[n - 1],
                    WrittenAll(c, n - 1), ip, [id, NatToString(n - 1)]);
    }
  }

  /** One round of an operand loop: the operand is written after the
      earlier rounds, then its index fact. */
  lemma WriteThenLink(g: TypeGraph, h: Host, s: GenState, s1: GenState, op: Value, n1: nat,
                      pred: string, cols: seq<string>)
    requires Advance(s, s1, n1) && pred != "constant::id" && pred in ConstantPreds()
    ensures Advance(s, OperandStep(g, h, s1, op, pred, cols), n1 + Written(op))
    decreases op, 5
  {
    var w := WriteConstant(g, h, s1, op);
    WriteConstantAdvance(g, h, s1, op);
    StepAdvance(s, s1, w.1, OperandStep(g, h, s1, op, pred, cols), n1, Written(op), pred, cols + [w.0]);
  }

  /** One more operand written after the first rounds of a loop, then its
      index fact. */
  lemma StepAdvance(s: GenState, s1: GenState, s2: GenState, u: GenState, n1: nat, n2: nat,
                    pred: string, cols: seq<string>)
    requires Advance(s, s1, n1) && Advance(s1, s2, n2)
    requires pred != "constant::id" && pred in ConstantPreds() && u == Emit(s2, pred, cols)
    ensures Advance(s, u, n1 + n2)
  {
    AdvanceTrans(s, s1, s2, n1, n2);
    AdvanceEmit(s2, pred, cols);
    AdvanceTrans(s, s2, u, n1 + n2, 0);
  }

  /** A constant tree of n written nodes yields n pairwise-distinct refmodes,
      and the counter moves on by n. */
  lemma WriteConstantIdsDistinct(g: TypeGraph, h: Host, s: GenState, c: Value)
    ensures var u := WriteConstant(g, h, s, c).1;
      && |s.facts| <= |u.facts|
      && u.ctx.constantIndex == s.ctx.constantIndex + Written(c)
      && |ConstantIds(u.facts[|s.facts|..])| == Written(c)
      && forall i, j :: 0 <= i < j < Written(c) ==>
           ConstantIds(u.facts[|s.facts|..])[i] != ConstantIds(u.facts[|s.facts|..])[j]
  {
    var u := WriteConstant(g, h, s, c).1;
    WriteConstantAdvance(g, h, s, c);
    var ids := ConstantIds(Added(s, u));
    var pre := WithContext(s.ctx.contexts, InstructionT);
    forall i, j | 0 <= i < j < Written(c)
      ensures ids[i] != ids[j]
    {
      SlotPrefixedDistinct(ids[i], ids[j], pre, s.ctx.constantIndex + i, s.ctx.constantIndex + j);
    }
  }

  // ---------------------------------------------------------------------
  // writeConstant on the generator object
  // ---------------------------------------------------------------------

  /** writeConstant: the header facts, then the kind chain. */
  method WriteConstantM(gen: FactGenerator, c: Value) returns (id: string)
    requires gen.Valid()
    modifies gen, gen.ctx
    ensures gen.Valid() && gen.ctx == old(gen.ctx)
    ensures (id, gen.St()) == WriteConstant(gen.graph, gen.host, old(gen.St()), c)
    decreases c, 3
  {
    id := gen.ConstantRefmode(c);
    gen.WriteFact("constant::id", [id]);
    WriteConstantAttrs(gen, c, id);
    assert ConstantHeader(gen.graph, gen.host, old(gen.St()), c) == (id, gen.St());
    WriteKindFacts(gen, c, id);
  }

  method WriteConstantAttrs(gen: FactGenerator, c: Value, id: string)
    requires gen.Valid()
    modifies gen, gen.ctx
    ensures gen.Valid() && gen.ctx == old(gen.ctx)
    ensures gen.St() == ConstantAttrs(gen.graph, gen.host, old(gen.St()), c, id)
  {
    var tr := gen.RecordType(c.ty);
    gen.WriteFact("constant::type", [id, tr]);
    gen.InsertResult(id, c.id);
    var f := gen.FunctionContext();
    if f.Some? {
      gen.WriteFact("constant::in_func", [id, "@" + f.value.self.name]);
    }
    var val := c.printed;
    var hashCode := gen.host.hash(val);
    gen.WriteFact("constant::value", [id, val]);
    gen.WriteFact("constant::hash", [id, NatToString(hashCode)]);
    gen.InsertResult(val, c.id);
  }

  method WriteKindFacts(gen: FactGenerator, c: Value, id: string)
    requires gen.Valid()
    modifies gen, gen.ctx
    ensures gen.Valid() && gen.ctx == old(gen.ctx)
    ensures gen.St() == KindFacts(gen.graph, gen.host, old(gen.St()), c, id)
    decreases c, 2
  {
    if !c.kind.ConstantV? {
      return;
    }
    match c.kind.c {
      case NullPtrC =>
        gen.WriteFact("nullptr_constant::id", [id]);
      case IntC(u) =>
        gen.WriteFact("integer_constant::id", [id]);
        if u < 0x1_0000 {
          gen.WriteFact("constant::to_integer", [id, NatToString(u)]);
        }
      case FpC =>
        gen.WriteFact("fp_constant::id", [id]);
      case FunctionC =>
        gen.WriteFact("func_constant::id", [id]);
        gen.WriteFact("func_constant::name", [id, "@" + c.name]);
      case GlobalVarC =>
        gen.WriteFact("global_var_constant::id", [id]);
        gen.WriteFact("global_var_constant::name", [id, "@" + c.name]);
      case ExprC(_, _) =>
        gen.WriteFact("constant_expr::id", [id]);
        WriteConstantExpr(gen, c, id);
      case ArrayC(_) =>
        WriteConstantWithOperands(gen, c, id, ArrayG);
      case StructC(_) =>
        WriteConstantWithOperands(gen, c, id, StructG);
      case VectorC(_) =>
        WriteConstantWithOperands(gen, c, id, VectorG);
      case UndefC =>
        gen.WriteFact("undef_constant::id", [id]);
      case AliasC =>
      case OtherC =>
    }
  }

  /** writeConstantExpr after its constant_expr::id fact. */
  method WriteConstantExpr(gen: FactGenerator, c: Value, id: string)
    requires gen.Valid() && c.kind.ConstantV? && c.kind.c.ExprC?
    modifies gen, gen.ctx
    ensures gen.Valid() && gen.ctx == old(gen.ctx)
    ensures gen.St() == ExprFacts(gen.graph, gen.host, old(gen.St()), c, id)
    decreases c, 1
  {
    match c.kind.c.op {
      case CastE(k) =>
        if CastPreds(k).Some? && |Operands(c)| > 0 {
          var (idPred, linkPred) := CastPreds(k).value;
          var opref := WriteConstantM(gen, Operands(c)[0]);
          gen.WriteFact(idPred, [id]);
          gen.WriteFact(linkPred, [id, opref]);
        }
      case GepE =>
        WriteGepOperands(gen, c, id);
        gen.WriteFact("gep_constant_expr::nindices", [id, NatToString(PrevIndex(|Operands(c)|))]);
        gen.WriteFact("gep_constant_expr::id", [id]);
      case OtherE(_) =>
    }
  }

  /** One operand: its constant, then the fact linking it. */
  method WriteOperand(gen: FactGenerator, op: Value, pred: string, cols: seq<string>)
    requires gen.Valid()
    modifies gen, gen.ctx
    ensures gen.Valid() && gen.ctx == old(gen.ctx)
    ensures gen.St() == OperandStep(gen.graph, gen.host, old(gen.St()), op, pred, cols)
    decreases op, 4
  {
    var r := WriteConstantM(gen, op);
    gen.WriteFact(pred, cols + [r]);
  }

  /** The operand loop of a GEP expression: the base, then the indices. */
  method WriteGepOperands(gen: FactGenerator, c: Value, id: string)
    requires gen.Valid()
    modifies gen, gen.ctx
    ensures gen.Valid() && gen.ctx == old(gen.ctx)
    ensures gen.St() == GepOperands(gen.graph, gen.host, old(gen.St()), c, id, |Operands(c)|)
    decreases c, 0
  {
    var n := |Operands(c)|;
    var i := 0;
    while i < n
      invariant 0 <= i <= n
      invariant gen.Valid() && gen.ctx == old(gen.ctx)
      invariant gen.St() == GepOperands(gen.graph, gen.host, old(gen.St()), c, id, i)
    {
      if i > 0 {
        WriteOperand(gen, Operands(c)[i], "gep_constant_expr::index", [id, NatToString(i - 1)]);
      } else {
        WriteOperand(gen, Operands(c)[i], "gep_constant_expr::base", [id]);
      }
      i := i + 1;
    }
  }

  /** writeConstantWithOperands: operand i at index i, then size and id. */
  method WriteConstantWithOperands(gen: FactGenerator, c: Value, id: string, a: Aggregate)
    requires gen.Valid()
    modifies gen, gen.ctx
    ensures gen.Valid() && gen.ctx == old(gen.ctx)
    ensures gen.St() == WithOperands(gen.graph, gen.host, old(gen.St()), c, id, a)
    decreases c, 1
  {
    var n := |Operands(c)|;
    var i := 0;
    while i < n
      invariant 0 <= i <= n
      invariant gen.Valid() && gen.ctx == old(gen.ctx)
      invariant gen.St() == OperandFacts(gen.graph, gen.host, old(gen.St()), c, id, IndexPred(a), i)
    {
      WriteOperand(gen, Operands(c)[i], IndexPred(a), [id, NatToString(i)]);
      i := i + 1;
    }
    gen.WriteFact(SizePred(a), [id, NatToString(n)]);
    gen.WriteFact(AggregateIdPred(a), [id]);
  }

  // ---------------------------------------------------------------------
  // A constant followed by the fact that links its owner to it
  // ---------------------------------------------------------------------

  /** u is s after writeConstant and one fact `pred(owner, ref)` naming the
      constant's refmode: the facts in between are constant facts, the
      refmode carries the slot current in s, n slots are taken, and nothing
      else the writers read changes. */
  ghost predicate LinksConstant(s: GenState, u: GenState, pred: string, owner: string, n: nat) {
    && |s.facts| < |u.facts| && u.facts[..|s.facts|] == s.facts
    && u.facts[|u.facts| - 1].pred == pred
    && |u.facts[|u.facts| - 1].cols| == 2
    && u.facts[|u.facts| - 1].cols[0] == owner
    && SlotPrefixed(u.facts[|u.facts| - 1].cols[1], WithContext(s.ctx.contexts, InstructionT), s.ctx.constantIndex)
    && (forall i :: |s.facts| <= i < |u.facts| - 1 ==> u.facts[i].pred in ConstantPreds())
    && SameFrames(s.ctx, u.ctx)
    && u.ctx.constantIndex == s.ctx.constantIndex + n
    && u.vars == s.vars
    && s.types <= u.types
  }

  /** Writing a constant and linking an owner to it has that shape. */
  lemma LinkedConstant(g: TypeGraph, h: Host, s: GenState, c: Value, pred: string, owner: string)
    ensures var (r, w) := WriteConstant(g, h, s, c);
      LinksConstant(s, Emit(w, pred, [owner, r]), pred, owner, Written(c))
  {
    WriteConstantAdvance(g, h, s, c);
    var (r, w) := WriteConstant(g, h, s, c);
    AdvanceThenLink(s, w, pred, owner, r, Written(c));
  }

  lemma AdvanceThenLink(s: GenState, w: GenState, pred: string, owner: string, r: string, n: nat)
    requires Advance(s, w, n)
    requires SlotPrefixed(r, WithContext(s.ctx.contexts, InstructionT), s.ctx.constantIndex)
    ensures LinksConstant(s, Emit(w, pred, [owner, r]), pred, owner, n)
  {
    assert forall i :: |s.facts| <= i < |w.facts| ==> w.facts[i] in Added(s, w);
  }
}
