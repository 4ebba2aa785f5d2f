// The instruction visitor: for each instruction kind, the fixed sequence of
// facts it writes about the current instruction. Every template is a list of
// steps, each writing one fact headed by the instruction's refmode: an
// operand (recorded as a constant, an inline asm or a variable, then linked
// to the instruction), an indexed operand, a plain fact, or a fact naming a
// recorded type. `Plan` gives that list for an instruction and `Visit` runs
// it; a malformed predicate or binop ends the run with an error.
module Instructions {
  import opened Common
  import opened LlvmEnums
  import opened Llvm
  import opened Contexts
  import opened Refmodes
  import opened Generator
  import opened Constants
  import opened Assembly

  /** One fact-writing step of a visitor template. */
  datatype Step =
    | Operand(pred: string, v: Value)                  // writeInstrOperand(pred, iref, v)
    | Indexed(pred: string, v: Value, index: nat)       // writeInstrOperand(pred, iref, v, index)
    | GepIndex(v: Value, index: nat)                    // a GEP index, with its integer value when small
    | Write(pred: string, cols: seq<string>)            // writeFact(pred, iref, cols...)
    | TypeFact(pred: string, t: TypeId)                 // writeFact(pred, iref, recordType(t))
    | Declare(address: Value, dv: Option<DeclaredVar>, loc: Option<Loc>)  // llvm.dbg.declare extras
    | Malformed(why: string)                            // malformedModule: the run ends

  // ---------------------------------------------------------------------
  // Tables
  // ---------------------------------------------------------------------

  /** The predicate group of a cast; addrspacecast has no visitor of its own
      and falls to the default, which writes nothing. */
  function CastGroup(k: CastOp): Option<string> {
    match k
    case Trunc => Some("trunc")
    case ZExt => Some("zext")
    case SExt => Some("sext")
    case FpTrunc => Some("fptrunc")
    case FpExt => Some("fpext")
    case FpToUi => Some("fptoui")
    case FpToSi => Some("fptosi")
    case UiToFp => Some("uitofp")
    case SiToFp => Some("sitofp")
    case PtrToInt => Some("ptrtoint")
    case IntToPtr => Some("inttoptr")
    case BitCast => Some("bitcast")
    case AddrSpaceCast => None
  }

  function BinGroup(b: BinOp): string {
    match b
    case Add => "add"
    case FAdd => "fadd"
    case Sub => "sub"
    case FSub => "fsub"
    case Mul => "mul"
    case FMul => "fmul"
    case UDiv => "udiv"
    case SDiv => "sdiv"
    case FDiv => "fdiv"
    case URem => "urem"
    case SRem => "srem"
    case FRem => "frem"
    case Shl => "shl"
    case LShr => "lshr"
    case AShr => "ashr"
    case And => "and_"
    case Or => "or_"
    case Xor => "xor_"
  }

  /** icmp_pred_string: the mnemonic of a comparison predicate; the two BAD
      values have none. */
  function CmpPredicateName(p: CmpPredicate): (r: Option<string>)
    ensures r.None? <==> p.BadFcmpPredicate? || p.BadIcmpPredicate?
  {
    match p
    case FcmpFalse => Some("false")
    case FcmpOeq => Some("oeq")
    case FcmpOgt => Some("ogt")
    case FcmpOge => Some("oge")
    case FcmpOlt => Some("olt")
    case FcmpOle => Some("ole")
    case FcmpOne => Some("one")
    case FcmpOrd => Some("ord")
    case FcmpUno => Some("uno")
    case FcmpUeq => Some("ueq")
    case FcmpUgt => Some("ugt")
    case FcmpUge => Some("uge")
    case FcmpUlt => Some("ult")
    case FcmpUle => Some("ule")
    case FcmpUne => Some("une")
    case FcmpTrue => Some("true")
    case IcmpEq => Some("eq")
    case IcmpNe => Some("ne")
    case IcmpSgt => Some("sgt")
    case IcmpSge => Some("sge")
    case IcmpSlt => Some("slt")
    case IcmpSle => Some("sle")
    case IcmpUgt => Some("ugt")
    case IcmpUge => Some("uge")
    case IcmpUlt => Some("ult")
    case IcmpUle => Some("ule")
    case BadFcmpPredicate => None
    case BadIcmpPredicate => None
  }

  /** atomic_binop_string: the mnemonic of an atomicrmw operation; BAD_BINOP
      has none. */
  function RmwOpName(op: RmwBinOp): (r: Option<string>)
    ensures r.None? <==> op.BadBinop?
  {
    match op
    case Xchg => Some("xchg")
    case RmwAdd => Some("add")
    case RmwSub => Some("sub")
    case RmwAnd => Some("and")
    case Nand => Some("nand")
    case RmwOr => Some("or")
    case RmwXor => Some("xor")
    case Max => Some("max")
    case Min => Some("min")
    case UMax => Some("umax")
    case UMin => Some("umin")
    case RmwFAdd => Some("fadd")
    case RmwFSub => Some("fsub")
    case FMax => Some("fmax")
    case FMin => Some("fmin")
    case BadBinop => None
  }

  /** Binary operators that are floating-point math operators. */
  predicate IsFpMath(b: BinOp) {
    b.FAdd? || b.FSub? || b.FMul? || b.FDiv? || b.FRem?
  }

  /** Binary operators that are overflowing operators. */
  predicate IsOverflowing(b: BinOp) {
    b.Add? || b.Sub? || b.Mul? || b.Shl?
  }

  /** Binary operators that may be exact. */
  predicate IsPossiblyExact(b: BinOp) {
    b.SDiv? || b.UDiv? || b.AShr? || b.LShr?
  }

  /** isFast: every fast-math flag is set. */
  predicate IsFast(m: FastMath) {
    m.reassoc && m.nnan && m.ninf && m.nsz && m.arcp && m.contract && m.afn
  }

  /** writeOptimizationInfo: the instruction flags, in the order written. */
  function OptFlags(b: BinOp, f: BinFlags): seq<string> {
    FastMathFlags(b, f.fmf) + WrapFlags(b, f)
  }

  /** A floating-point operator is either fully fast or lists its fast-math
      flags one by one (reassociation has no flag of its own). */
  function FastMathFlags(b: BinOp, m: FastMath): seq<string> {
    if !IsFpMath(b) then []
    else if IsFast(m) then ["fast"]
    else When2(m.nnan, "nnan") + When2(m.ninf, "ninf") + When2(m.nsz, "nsz")
         + When2(m.arcp, "arcp") + When2(m.contract, "acon") + When2(m.afn, "apfn")
  }

  /** No-wrap flags for overflowing operators, otherwise the exact flag for
      operators that may be exact. */
  function WrapFlags(b: BinOp, f: BinFlags): seq<string> {
    if IsOverflowing(b) then When2(f.nuw, "nuw") + When2(f.nsw, "nsw")
    else if IsPossiblyExact(b) then When2(f.exact, "exact")
    else []
  }

  function When2(c: bool, x: string): seq<string> {
    if c then [x] else []
  }

  /** Each fast-math flag is written exactly when the operator is a
      floating-point one that is not fully fast and the flag is set; "fast"
      exactly when it is fully fast. */
  lemma FastMathFlagsMeaning(b: BinOp, m: FastMath)
    ensures "fast" in FastMathFlags(b, m) <==> IsFpMath(b) && IsFast(m)
    ensures "nnan" in FastMathFlags(b, m) <==> IsFpMath(b) && !IsFast(m) && m.nnan
    ensures "ninf" in FastMathFlags(b, m) <==> IsFpMath(b) && !IsFast(m) && m.ninf
    ensures "nsz" in FastMathFlags(b, m) <==> IsFpMath(b) && !IsFast(m) && m.nsz
    ensures "arcp" in FastMathFlags(b, m) <==> IsFpMath(b) && !IsFast(m) && m.arcp
    ensures "acon" in FastMathFlags(b, m) <==> IsFpMath(b) && !IsFast(m) && m.contract
    ensures "apfn" in FastMathFlags(b, m) <==> IsFpMath(b) && !IsFast(m) && m.afn
    ensures |FastMathFlags(b, m)| <= 6
  {
  }

  /** nuw and nsw are written exactly for set flags on an overflowing
      operator, exact exactly for a set flag on a possibly-exact one. */
  lemma WrapFlagsMeaning(b: BinOp, f: BinFlags)
    ensures "nuw" in WrapFlags(b, f) <==> IsOverflowing(b) && f.nuw
    ensures "nsw" in WrapFlags(b, f) <==> IsOverflowing(b) && f.nsw
    ensures "exact" in WrapFlags(b, f) <==> IsPossiblyExact(b) && f.exact
    ensures |WrapFlags(b, f)| <= 2
  {
  }

  /** The operator classes are disjoint, so at most one group of flags
      applies to any binary operator. */
  lemma OperatorClassesDisjoint(b: BinOp)
    ensures !(IsFpMath(b) && IsOverflowing(b))
    ensures !(IsFpMath(b) && IsPossiblyExact(b))
    ensures !(IsOverflowing(b) && IsPossiblyExact(b))
  {
  }

  // ---------------------------------------------------------------------
  // The templates
  // ---------------------------------------------------------------------

  /** The steps each instruction kind takes. Kinds with no template of their
      own (addrspacecast and every kind `OtherInstr` stands for) only report
      themselves as unknown and write nothing. */
  function Plan(h: Host, I: Instruction): seq<Step> {
    match I.op
    case Cast(_, _) => CastTemplate(h, I)
    case Binary(_, _, _, _) => BinaryTemplate(h, I)
    case Ret(_) => RetTemplate(h, I)
    case BrCond(_, _, _) => BrCondTemplate(h, I)
    case BrUncond(_) => BrUncondTemplate(h, I)
    case Switch(_, _, _) => SwitchTemplate(h, I)
    case IndirectBr(_, _) => IndirectBrTemplate(h, I)
    case Invoke(_, _, _, _, _) => InvokeTemplate(h, I)
    case Resume(_) => ResumeTemplate(h, I)
    case Unreachable => UnreachableTemplate(h, I)
    case Alloca(_, _, _) => AllocaTemplate(h, I)
    case Load(_, _, _, _, _) => LoadTemplate(h, I)
    case VaArg(_) => VaArgTemplate(h, I)
    case ExtractValue(_, _) => ExtractValueTemplate(h, I)
    case Store(_, _, _, _, _, _) => StoreTemplate(h, I)
    case CmpXchg(_, _, _, _, _, _, _) => CmpXchgTemplate(h, I)
    case AtomicRmw(_, _, _, _, _, _) => AtomicRmwTemplate(h, I)
    case Fence(_, _) => FenceTemplate(h, I)
    case Gep(_, _, _) => GepTemplate(h, I)
    case Phi(_) => PhiTemplate(h, I)
    case Select(_, _, _) => SelectTemplate(h, I)
    case InsertValue(_, _, _) => InsertValueTemplate(h, I)
    case LandingPad(_, _) => LandingPadTemplate(h, I)
    case Call(_, _, _, _) => CallTemplate(h, I)
    case DbgDeclare(_, _, _, _, _, _) => DbgDeclareTemplate(h, I)
    case ICmp(_, _, _) => ICmpTemplate(h, I)
    case FCmp(_, _, _) => FCmpTemplate(h, I)
    case ExtractElement(_, _) => ExtractElementTemplate(h, I)
    case InsertElement(_, _, _) => InsertElementTemplate(h, I)
    case ShuffleVector(_, _, _) => ShuffleVectorTemplate(h, I)
    case OtherInstr(_) => []
  }

  function CastTemplate(h: Host, I: Instruction): (steps: seq<Step>)
    requires I.op.Cast?
    ensures forall st :: st in steps ==> !st.Malformed?
  {
    var Cast(k, v) := I.op;
    (match CastGroup(k)
     case None => []
     case Some(gr) => [Write(gr + "::instr", []), Operand(gr + "::from_operand", v),
                       TypeFact(gr + "::to_type", I.self.ty)])
  }

  function BinaryTemplate(h: Host, I: Instruction): (steps: seq<Step>)
    requires I.op.Binary?
    ensures forall st :: st in steps ==> !st.Malformed?
  {
    var gr := BinGroup(I.op.binOp);
    var flags := OptFlags(I.op.binOp, I.op.flags);
    [Write(gr + "::instr", []), Operand(gr + "::first_operand", I.op.lhs), Operand(gr + "::second_operand", I.op.rhs)]
    + FlagSteps(flags)
  }

  function RetTemplate(h: Host, I: Instruction): (steps: seq<Step>)
    requires I.op.Ret?
    ensures forall st :: st in steps ==> !st.Malformed?
  {
    var Ret(rv) := I.op;
    [Write("ret::instr", [])]
    + (match rv case Some(v) => [Operand("ret::operand", v)] case None => [Write("ret::void_", [])])
  }

  function BrCondTemplate(h: Host, I: Instruction): (steps: seq<Step>)
    requires I.op.BrCond?
    ensures forall st :: st in steps ==> !st.Malformed?
  {
    var BrCond(c, o1, o2) := I.op;
    [Write("br::instr", []), Write("br::cond", []), Operand("br::condition", c),
     Operand("br::true_label", o1), Operand("br::false_label", o2)]
  }

  function BrUncondTemplate(h: Host, I: Instruction): (steps: seq<Step>)
    requires I.op.BrUncond?
    ensures forall st :: st in steps ==> !st.Malformed?
  {
    var BrUncond(o0) := I.op;
    [Write("br::instr", []), Write("br::uncond", []), Operand("br::uncond_label", o0)]
  }

  function SwitchTemplate(h: Host, I: Instruction): (steps: seq<Step>)
    requires I.op.Switch?
    ensures forall st :: st in steps ==> !st.Malformed?
  {
    var Switch(v, d, cases) := I.op;
    [Write("switch_::instr", []), Operand("switch_::operand", v), Operand("switch_::default_label", d)]
    + PairSteps("switch_::case_value", "switch_::case_label", cases)
    + [Write("switch_::ncases", [NatToString(|cases|)])]
  }

  function IndirectBrTemplate(h: Host, I: Instruction): (steps: seq<Step>)
    requires I.op.IndirectBr?
    ensures forall st :: st in steps ==> !st.Malformed?
  {
    var IndirectBr(addr, labels) := I.op;
    [Write("indirectbr::instr", [])]
    + IndexedSteps("indirectbr::label", labels)
    + [Write("indirectbr::nlabels", [NatToString(|labels|)]), Operand("indirectbr::address", addr)]
  }

  function InvokeTemplate(h: Host, I: Instruction): (steps: seq<Step>)
    requires I.op.Invoke?
    ensures forall st :: st in steps ==> !st.Malformed?
  {
    var Invoke(f, args, nd, ud, cc) := I.op;
    [Write("invoke::instr", []), Operand("invoke::func_operand", f)]
    + IndexedSteps("invoke::arg", args)
    + [Operand("invoke::normal_label", nd), Operand("invoke::exception_label", ud)]
    + ConvSteps(h, "invoke::calling_conv", cc)
  }

  function ResumeTemplate(h: Host, I: Instruction): (steps: seq<Step>)
    requires I.op.Resume?
    ensures forall st :: st in steps ==> !st.Malformed?
  {
    var Resume(v) := I.op;
    [Write("resume::instr", []), Operand("resume::operand", v)]
  }

  function UnreachableTemplate(h: Host, I: Instruction): (steps: seq<Step>)
    requires I.op.Unreachable?
    ensures forall st :: st in steps ==> !st.Malformed?
  {
    [Write("unreachable::instr", [])]
  }

  function AllocaTemplate(h: Host, I: Instruction): (steps: seq<Step>)
    requires I.op.Alloca?
    ensures forall st :: st in steps ==> !st.Malformed?
  {
    var Alloca(t, size, alignLog2) := I.op;
    [Write("alloca::instr", []), TypeFact("alloca::type", t)]
    + (match size case Some(v) => [Operand("alloca::size", v)] case None => [])
    + [Write("alloca::alignment", [NatToString(alignLog2)])]
  }

  function LoadTemplate(h: Host, I: Instruction): (steps: seq<Step>)
    requires I.op.Load?
    ensures forall st :: st in steps ==> !st.Malformed?
  {
    var Load(addr, ord, st, alignLog2, vol) := I.op;
    [Write("load::instr", []), Operand("load::address", addr)]
    + (if ord != NotAtomic then AtomicSteps("load::ordering", ord, st) else [])
    + [Write("load::alignment", [NatToString(alignLog2)])]
    + (if vol then [Write("load::is_volatile", [])] else [])
  }

  function VaArgTemplate(h: Host, I: Instruction): (steps: seq<Step>)
    requires I.op.VaArg?
    ensures forall st :: st in steps ==> !st.Malformed?
  {
    var VaArg(vl) := I.op;
    [Write("va_arg::instr", []), TypeFact("va_arg::type", I.self.ty), Operand("va_arg::va_list", vl)]
  }

  function ExtractValueTemplate(h: Host, I: Instruction): (steps: seq<Step>)
    requires I.op.ExtractValue?
    ensures forall st :: st in steps ==> !st.Malformed?
  {
    var ExtractValue(base, idxs) := I.op;
    [Write("extractvalue::instr", []), Operand("extractvalue::base", base)]
    + IndexSteps("extractvalue::index", idxs)
    + [Write("extractvalue::nindices", [NatToString(|idxs|)])]
  }

  function StoreTemplate(h: Host, I: Instruction): (steps: seq<Step>)
    requires I.op.Store?
    ensures forall st :: st in steps ==> !st.Malformed?
  {
    var Store(v, addr, ord, st, alignLog2, vol) := I.op;
    [Write("store::instr", []), Operand("store::value", v), Operand("store::address", addr)]
    + (if ord != NotAtomic then AtomicSteps("store::ordering", ord, st) else [])
    + [Write("store::alignment", [NatToString(alignLog2)])]
    + (if vol then [Write("store::is_volatile", [])] else [])
  }

  function CmpXchgTemplate(h: Host, I: Instruction): (steps: seq<Step>)
    requires I.op.CmpXchg?
    ensures forall st :: st in steps ==> !st.Malformed?
  {
    var CmpXchg(addr, cmp, nv, vol, so, fo, st) := I.op;
    [Write("cmpxchg::instr", []), Operand("cmpxchg::address", addr),
     Operand("cmpxchg::cmp_value", cmp), Operand("cmpxchg::new_value", nv)]
    + (if vol then [Write("cmpxchg::is_volatile", [])] else [])
    + (if st then [Write("instr::flag", ["singlethread"])] else [])
    + OrderingStep("cmpxchg::ordering", so)
    + OrderingStep("cmpxchg::ordering", fo)
  }

  function AtomicRmwTemplate(h: Host, I: Instruction): (steps: seq<Step>)
    requires I.op.AtomicRmw?
    ensures !Rejected(I) ==> forall st :: st in steps ==> !st.Malformed?
  {
    var AtomicRmw(addr, v, vol, op, ord, st) := I.op;
    [Write("atomicrmw::instr", []), Operand("atomicrmw::address", addr), Operand("atomicrmw::value", v)]
    + (if vol then [Write("atomicrmw::is_volatile", [])] else [])
    + (match RmwOpName(op)
       case Some(n) => [Write("atomicrmw::operation", [n])]
       case None => [Malformed("bad atomicrmw binop")])
    + AtomicSteps("atomicrmw::ordering", ord, st)
  }

  function FenceTemplate(h: Host, I: Instruction): (steps: seq<Step>)
    requires I.op.Fence?
    ensures forall st :: st in steps ==> !st.Malformed?
  {
    var Fence(ord, st) := I.op;
    [Write("fence::instr", [])] + AtomicSteps("fence::ordering", ord, st)
  }

  function GepTemplate(h: Host, I: Instruction): (steps: seq<Step>)
    requires I.op.Gep?
    ensures forall st :: st in steps ==> !st.Malformed?
  {
    var Gep(base, idxs, inb) := I.op;
    [Write("getelementptr::instr", []), Operand("getelementptr::base", base)]
    + GepSteps(idxs)
    + [Write("getelementptr::nindices", [NatToString(|idxs|)])]
    + (if inb then [Write("getelementptr::inbounds", [])] else [])
  }

  function PhiTemplate(h: Host, I: Instruction): (steps: seq<Step>)
    requires I.op.Phi?
    ensures forall st :: st in steps ==> !st.Malformed?
  {
    var Phi(incoming) := I.op;
    [Write("phi::instr", []), TypeFact("phi::type", I.self.ty)]
    + PairSteps("phi::pair_value", "phi::pair_label", incoming)
    + [Write("phi::npairs", [NatToString(|incoming|)])]
  }

  function SelectTemplate(h: Host, I: Instruction): (steps: seq<Step>)
    requires I.op.Select?
    ensures forall st :: st in steps ==> !st.Malformed?
  {
    var Select(c, t, f) := I.op;
    [Write("select::instr", []), Operand("select::condition", c),
     Operand("select::first_operand", t), Operand("select::second_operand", f)]
  }

  function InsertValueTemplate(h: Host, I: Instruction): (steps: seq<Step>)
    requires I.op.InsertValue?
    ensures forall st :: st in steps ==> !st.Malformed?
  {
    var InsertValue(base, v, idxs) := I.op;
    [Write("insertvalue::instr", []), Operand("insertvalue::base", base), Operand("insertvalue::value", v)]
    + IndexSteps("insertvalue::index", idxs)
    + [Write("insertvalue::nindices", [NatToString(|idxs|)])]
  }

  function LandingPadTemplate(h: Host, I: Instruction): (steps: seq<Step>)
    requires I.op.LandingPad?
    ensures forall st :: st in steps ==> !st.Malformed?
  {
    var LandingPad(cleanup, clauses) := I.op;
    [Write("landingpad::instr", []), TypeFact("landingpad::type", I.self.ty)]
    + (if cleanup then [Write("landingpad::cleanup", [])] else [])
    + ClauseSteps(clauses)
    + [Write("landingpad::nclauses", [NatToString(|clauses|)])]
  }

  function CallTemplate(h: Host, I: Instruction): (steps: seq<Step>)
    requires I.op.Call?
    ensures forall st :: st in steps ==> !st.Malformed?
  {
    var Call(f, args, tail, cc) := I.op;
    CallSteps(h, f, args, tail, cc)
  }

  function DbgDeclareTemplate(h: Host, I: Instruction): (steps: seq<Step>)
    requires I.op.DbgDeclare?
    ensures forall st :: st in steps ==> !st.Malformed?
  {
    var DbgDeclare(f, args, tail, cc, addr, dv) := I.op;
    CallSteps(h, f, args, tail, cc) + [Declare(addr, dv, I.debugLoc)]
  }

  function ICmpTemplate(h: Host, I: Instruction): (steps: seq<Step>)
    requires I.op.ICmp?
    ensures !Rejected(I) ==> forall st :: st in steps ==> !st.Malformed?
  {
    var ICmp(p, l, r) := I.op;
    CmpSteps("icmp", p, l, r)
  }

  function FCmpTemplate(h: Host, I: Instruction): (steps: seq<Step>)
    requires I.op.FCmp?
    ensures !Rejected(I) ==> forall st :: st in steps ==> !st.Malformed?
  {
    var FCmp(p, l, r) := I.op;
    CmpSteps("fcmp", p, l, r)
  }

  function ExtractElementTemplate(h: Host, I: Instruction): (steps: seq<Step>)
    requires I.op.ExtractElement?
    ensures forall st :: st in steps ==> !st.Malformed?
  {
    var ExtractElement(v, i) := I.op;
    [Write("extractelement::instr", []), Operand("extractelement::base", v), Operand("extractelement::index", i)]
  }

  function InsertElementTemplate(h: Host, I: Instruction): (steps: seq<Step>)
    requires I.op.InsertElement?
    ensures forall st :: st in steps ==> !st.Malformed?
  {
    var InsertElement(v, x, i) := I.op;
    [Write("insertelement::instr", []), Operand("insertelement::base", v),
     Operand("insertelement::value", x), Operand("insertelement::index", i)]
  }

  function ShuffleVectorTemplate(h: Host, I: Instruction): (steps: seq<Step>)
    requires I.op.ShuffleVector?
    ensures forall st :: st in steps ==> !st.Malformed?
  {
    var ShuffleVector(a, b, m) := I.op;
    [Write("shufflevector::instr", []), Operand("shufflevector::first_vector", a),
     Operand("shufflevector::second_vector", b), Operand("shufflevector::mask", m)]
  }

  function FlagSteps(flags: seq<string>): (r: seq<Step>)
    ensures |r| == |flags| && forall i :: 0 <= i < |r| ==> r[i] == Write("instr::flag", [flags[i]])
    ensures forall st :: st in r ==> st.Write?
  {
    if |flags| == 0 then [] else FlagSteps(flags[..|flags| - 1]) + [Write("instr::flag", [flags[|flags| - 1]])]
  }

  /** Operand i of the list at index i. */
  function IndexedSteps(pred: string, vs: seq<Value>): (r: seq<Step>)
    ensures forall st :: st in r ==> st.Indexed?
  {
    if |vs| == 0 then [] else IndexedSteps(pred, vs[..|vs| - 1]) + [Indexed(pred, vs[|vs| - 1], |vs| - 1)]
  }

  /** Pair i as two operands sharing index i (switch cases, phi entries). */
  function PairSteps(p1: string, p2: string, ps: seq<(Value, Value)>): (r: seq<Step>)
    ensures forall st :: st in r ==> st.Indexed?
  {
    if |ps| == 0 then []
    else PairSteps(p1, p2, ps[..|ps| - 1])
         + [Indexed(p1, ps[|ps| - 1].0, |ps| - 1), Indexed(p2, ps[|ps| - 1].1, |ps| - 1)]
  }

  /** Constant index i with its value (extractvalue, insertvalue). */
  function IndexSteps(pred: string, idxs: seq<nat>): (r: seq<Step>)
    ensures forall st :: st in r ==> st.Write?
  {
    if |idxs| == 0 then []
    else IndexSteps(pred, idxs[..|idxs| - 1])
         + [Write(pred, [NatToString(|idxs| - 1), NatToString(idxs[|idxs| - 1])])]
  }

  /** GEP operand k+1 as index k. */
  function GepSteps(idxs: seq<Value>): (r: seq<Step>)
    ensures forall st :: st in r ==> st.GepIndex?
  {
    if |idxs| == 0 then [] else GepSteps(idxs[..|idxs| - 1]) + [GepIndex(idxs[|idxs| - 1], |idxs| - 1)]
  }

  /** Clause i as a catch or filter clause at index i. */
  function ClauseSteps(cs: seq<LandingPadClause>): (r: seq<Step>)
    ensures forall st :: st in r ==> st.Indexed?
  {
    if |cs| == 0 then []
    else
      var c := cs[|cs| - 1];
      ClauseSteps(cs[..|cs| - 1])
      + [Indexed(ClausePred(c), c.clause, |cs| - 1)]
  }

  function ClausePred(c: LandingPadClause): string {
    if c.isCatch then "landingpad::catch_clause" else "landingpad::filter_clause"
  }

  /** The calling-convention fact, unless the convention is C. */
  function ConvSteps(h: Host, pred: string, cc: CallingConv): (r: seq<Step>)
    ensures forall st :: st in r ==> st.Write?
  {
    if cc.C? then [] else [Write(pred, [ConvText(h, cc)])]
  }

  /** The ordering fact, when the ordering has a name. */
  function OrderingStep(pred: string, ord: AtomicOrdering): (r: seq<Step>)
    ensures forall st :: st in r ==> st.Write?
  {
    var n := AtomicOrderingName(ord);
    if |n| > 0 then [Write(pred, [n])] else []
  }

  /** writeAtomicInfo: the single-thread flag, then the ordering. */
  function AtomicSteps(orderingPred: string, ord: AtomicOrdering, singleThread: bool): (r: seq<Step>)
    ensures forall st :: st in r ==> st.Write?
  {
    (if singleThread then [Write("instr::flag", ["singlethread"])] else []) + OrderingStep(orderingPred, ord)
  }

  function CallSteps(h: Host, f: Value, args: seq<Value>, tail: bool, cc: CallingConv): (r: seq<Step>)
    ensures forall st :: st in r ==> !st.Malformed?
  {
    [Write("call::instr", []), Operand("call::func_operand", f)]
    + IndexedSteps("call::arg", args)
    + (if tail then [Write("call::tail_opt", [])] else [])
    + ConvSteps(h, "call::calling_conv", cc)
  }

  /** The comparison's condition then its two operands; a BAD predicate ends
      the run right after the instruction fact. */
  function CmpSteps(gr: string, p: CmpPredicate, l: Value, r: Value): seq<Step> {
    [Write(gr + "::instr", [])]
    + match CmpPredicateName(p)
      case Some(n) => [Write(gr + "::condition", [n]), Operand(gr + "::first_operand", l),
                       Operand(gr + "::second_operand", r)]
      case None => [Malformed(if p.BadFcmpPredicate? then "bad fcmp predicate" else "bad icmp predicate")]
  }

  // ---------------------------------------------------------------------
  // Running the steps
  // ---------------------------------------------------------------------

  /** recordValue: a constant is written with a fresh slot, an inline asm is
      written, and anything else gets its function-qualified refmode and is
      cached as a variable of its type. */
  function RecordValue(g: TypeGraph, h: Host, s: GenState, v: Value): (string, GenState) {
    if v.kind.ConstantV? then WriteConstant(g, h, s, v)
    else if v.kind.InlineAsmV? then WriteAsm(g, h, s, v)
    else
      var (r, s) := ValueRef(g, s, v);
      (r, RecordVar(s, r, v.ty))
  }

  /** The integer a GEP index constant carries, when it fits in 16 bits:
      `isIntN(16)` on the unsigned value of an integer constant or of the
      common element of a splat vector. */
  function SmallIndex(v: Value): (r: Option<nat>)
    ensures forall n: nat :: r == Some(n) <==>
      (n < 0x1_0000 && (v.kind == ConstantV(IntC(n)) || (v.kind.ConstantV? && v.kind.c.VectorC? && IntSplat(v.kind.c.elems, n))))
  {
    match UniqueInteger(v)
    case Some(n) => if n < 0x1_0000 then Some(n) else None
    case None => None
  }

  /** One step, for the instruction with refmode `iref`. */
  function RunStep(g: TypeGraph, h: Host, s: GenState, iref: string, st: Step): Result<GenState> {
    match st
    case Operand(pred, v) =>
      var (r, s) := RecordValue(g, h, s, v);
      Ok(Emit(s, pred, [iref, r]))
    case Indexed(pred, v, k) =>
      var (r, s) := RecordValue(g, h, s, v);
      Ok(Emit(s, pred, [iref, NatToString(k), r]))
    case GepIndex(v, k) =>
      var (r, s) := RecordValue(g, h, s, v);
      var s := Emit(s, "getelementptr::index", [iref, NatToString(k), r]);
      Ok(match SmallIndex(v)
         case Some(n) => Emit(s, "constant::to_integer", [r, NatToString(n)])
         case None => s)
    case Write(pred, cols) => Ok(Emit(s, pred, [iref] + cols))
    case TypeFact(pred, t) =>
      var (tr, s) := RecordTy(g, s, t);
      Ok(Emit(s, pred, [iref, tr]))
    case Declare(addr, dv, loc) => Ok(DeclareFacts(g, s, addr, dv, loc))
    case Malformed(why) => Err(why)
  }

  /** visitDbgDeclareInst after the call facts: nothing for an undef
      address; otherwise the source name of the declared variable and the
      declaration's line and column, both about the address's refmode. */
  function DeclareFacts(g: TypeGraph, s: GenState, addr: Value, dv: Option<DeclaredVar>, loc: Option<Loc>): GenState {
    if IsUndef(addr) then s
    else
      var (r, s) := ValueRef(g, s, addr);
      var s := match dv
        case Some(d) => Emit(s, "variable::source_name", [r, d.name])
        case None => s;
      match loc
      case Some(l) => Emit(s, "variable::pos", [r, NatToString(l.line), NatToString(l.col)])
      case None => s
  }

  /** The first n steps, each taken by `step`, stopping at the first error. */
  function RunSteps(step: (GenState, Step) -> Result<GenState>, s: GenState, steps: seq<Step>, n: nat): Result<GenState>
    requires n <= |steps|
  {
    if n == 0 then Ok(s)
    else match RunSteps(step, s, steps, n - 1)
      case Err(e) => Err(e)
      case Ok(p) => step(p, steps[n - 1])
  }

  /** The steps of the instruction with refmode `iref`. */
  function Stepper(g: TypeGraph, h: Host, iref: string): (GenState, Step) -> Result<GenState> {
    (p, st) => RunStep(g, h, p, iref, st)
  }

  /** All the steps. */
  function Run(g: TypeGraph, h: Host, s: GenState, iref: string, steps: seq<Step>): Result<GenState> {
    RunSteps(Stepper(g, h, iref), s, steps, |steps|)
  }

  /** The visitor on an instruction whose frame is the current one. */
  function Visit(g: TypeGraph, h: Host, s: GenState, I: Instruction): Result<GenState> {
    Run(g, h, s, InstructionRefmode(s.ctx), Plan(h, I))
  }

  // ---------------------------------------------------------------------
  // The index loops: operand i at index i
  // ---------------------------------------------------------------------

  lemma {:induction false} IndexedStepsAt(pred: string, vs: seq<Value>)
    ensures |IndexedSteps(pred, vs)| == |vs|
    ensures forall i :: 0 <= i < |vs| ==> IndexedSteps(pred, vs)[i] == Indexed(pred, vs[i], i)
  {
    if |vs| > 0 {
      var r := vs[..|vs| - 1];
      IndexedStepsAt(pred, r);
      assert forall i :: 0 <= i < |r| ==> r[i] == vs[i];
    }
  }

  lemma {:induction false} PairStepsAt(p1: string, p2: string, ps: seq<(Value, Value)>)
    ensures |PairSteps(p1, p2, ps)| == 2 * |ps|
    ensures forall i :: 0 <= i < |ps| ==>
      && PairSteps(p1, p2, ps)[2 * i] == Indexed(p1, ps[i].0, i)
      && PairSteps(p1, p2, ps)[2 * i + 1] == Indexed(p2, ps[i].1, i)
  {
    if |ps| > 0 {
      var r := ps[..|ps| - 1];
      PairStepsAt(p1, p2, r);
      assert forall i :: 0 <= i < |r| ==> r[i] == ps[i];
    }
  }

  lemma {:induction false} IndexStepsAt(pred: string, idxs: seq<nat>)
    ensures |IndexSteps(pred, idxs)| == |idxs|
    ensures forall i :: 0 <= i < |idxs| ==>
      IndexSteps(pred, idxs)[i] == Write(pred, [NatToString(i), NatToString(idxs[i])])
  {
    if |idxs| > 0 {
      var r := idxs[..|idxs| - 1];
      IndexStepsAt(pred, r);
      assert forall i :: 0 <= i < |r| ==> r[i] == idxs[i];
    }
  }

  lemma {:induction false} GepStepsAt(idxs: seq<Value>)
    ensures |GepSteps(idxs)| == |idxs|
    ensures forall k :: 0 <= k < |idxs| ==> GepSteps(idxs)[k] == GepIndex(idxs[k], k)
  {
    if |idxs| > 0 {
      var r := idxs[..|idxs| - 1];
      GepStepsAt(r);
      assert forall i :: 0 <= i < |r| ==> r[i] == idxs[i];
    }
  }

  lemma {:induction false} ClauseStepsAt(cs: seq<LandingPadClause>)
    ensures |ClauseSteps(cs)| == |cs|
    ensures forall i :: 0 <= i < |cs| ==>
      ClauseSteps(cs)[i] == Indexed(ClausePred(cs[i]), cs[i].clause, i)
  {
    if |cs| > 0 {
      var r := cs[..|cs| - 1];
      ClauseStepsAt(r);
      assert forall i :: 0 <= i < |r| ==> r[i] == cs[i];
    }
  }

  // ---------------------------------------------------------------------
  // Template layouts: operand i of a list is written with index i
  // ---------------------------------------------------------------------

  /** switch: the condition and the default label, then case i's value and
      label with index i, then the number of cases. */
  lemma SwitchLayout(h: Host, I: Instruction)
    requires I.op.Switch?
    ensures var P := Plan(h, I); var cs := I.op.cases;
      && |P| == 2 * |cs| + 4
      && P[1] == Operand("switch_::operand", I.op.switchValue)
      && P[2] == Operand("switch_::default_label", I.op.defaultDest)
      && (forall i :: 0 <= i < |cs| ==>
            && P[3 + 2 * i] == Indexed("switch_::case_value", cs[i].0, i)
            && P[4 + 2 * i] == Indexed("switch_::case_label", cs[i].1, i))
      && P[2 * |cs| + 3] == Write("switch_::ncases", [NatToString(|cs|)])
  {
    var cs := I.op.cases;
    var pre := [Write("switch_::instr", []), Operand("switch_::operand", I.op.switchValue),
                Operand("switch_::default_label", I.op.defaultDest)];
    var mid := PairSteps("switch_::case_value", "switch_::case_label", cs);
    var post := [Write("switch_::ncases", [NatToString(|cs|)])];
    PairStepsAt("switch_::case_value", "switch_::case_label", cs);
    assert Plan(h, I) == pre + mid + post;
    forall i | 0 <= i < |cs|
      ensures (pre + mid + post)[3 + 2 * i] == mid[2 * i]
      ensures (pre + mid + post)[4 + 2 * i] == mid[2 * i + 1]
    {
      Middle(pre, mid, post, 2 * i);
      Middle(pre, mid, post, 2 * i + 1);
    }
  }

  /** indirectbr: label i with index i, then the number of labels, then the
      address. */
  lemma IndirectBrLayout(h: Host, I: Instruction)
    requires I.op.IndirectBr?
    ensures var P := Plan(h, I); var ls := I.op.labels;
      && |P| == |ls| + 3
      && (forall i :: 0 <= i < |ls| ==> P[1 + i] == Indexed("indirectbr::label", ls[i], i))
      && P[|ls| + 1] == Write("indirectbr::nlabels", [NatToString(|ls|)])
      && P[|ls| + 2] == Operand("indirectbr::address", I.op.address)
  {
    var ls := I.op.labels;
    var pre := [Write("indirectbr::instr", [])];
    var mid := IndexedSteps("indirectbr::label", ls);
    var post := [Write("indirectbr::nlabels", [NatToString(|ls|)]), Operand("indirectbr::address", I.op.address)];
    IndexedStepsAt("indirectbr::label", ls);
    assert Plan(h, I) == pre + mid + post;
    forall i | 0 <= i < |ls|
      ensures (pre + mid + post)[1 + i] == mid[i]
    {
      Middle(pre, mid, post, i);
    }
  }

  /** call (and the call part of llvm.dbg.declare): the callee, then
      argument i with index i, then the tail marker and the calling
      convention. */
  lemma CallLayout(h: Host, I: Instruction)
    requires I.op.Call?
    ensures var P := Plan(h, I); var args := I.op.callArgs;
      && |P| >= |args| + 2
      && P[1] == Operand("call::func_operand", I.op.callee)
      && (forall i :: 0 <= i < |args| ==> P[2 + i] == Indexed("call::arg", args[i], i))
      && (Write("call::tail_opt", []) in P <==> I.op.tail)
  {
    var args := I.op.callArgs;
    var pre := [Write("call::instr", []), Operand("call::func_operand", I.op.callee)];
    var mid := IndexedSteps("call::arg", args);
    var post := (if I.op.tail then [Write("call::tail_opt", [])] else [])
                + ConvSteps(h, "call::calling_conv", I.op.callConv);
    IndexedStepsAt("call::arg", args);
    assert Plan(h, I) == pre + mid + post;
    forall i | 0 <= i < |args|
      ensures (pre + mid + post)[2 + i] == mid[i]
    {
      Middle(pre, mid, post, i);
    }
    assert Write("call::tail_opt", []) !in mid;
    CallingConvFact(h, I.op.callConv);
  }

  lemma CallingConvFact(h: Host, cc: CallingConv)
    ensures Write("call::tail_opt", []) !in ConvSteps(h, "call::calling_conv", cc)
  {
    if !cc.C? {
      assert "call::calling_conv" != "call::tail_opt" by {
        assert "call::calling_conv"[6] != "call::tail_opt"[6];
      }
    }
  }

  /** invoke: the callee, argument i with index i, then the normal and the
      exception label. */
  lemma InvokeLayout(h: Host, I: Instruction)
    requires I.op.Invoke?
    ensures var P := Plan(h, I); var args := I.op.invokeArgs;
      && |P| >= |args| + 4
      && P[1] == Operand("invoke::func_operand", I.op.invokee)
      && (forall i :: 0 <= i < |args| ==> P[2 + i] == Indexed("invoke::arg", args[i], i))
      && P[|args| + 2] == Operand("invoke::normal_label", I.op.normalDest)
      && P[|args| + 3] == Operand("invoke::exception_label", I.op.unwindDest)
  {
    var args := I.op.invokeArgs;
    var pre := [Write("invoke::instr", []), Operand("invoke::func_operand", I.op.invokee)];
    var mid := IndexedSteps("invoke::arg", args);
    var post := [Operand("invoke::normal_label", I.op.normalDest), Operand("invoke::exception_label", I.op.unwindDest)]
                + ConvSteps(h, "invoke::calling_conv", I.op.invokeConv);
    IndexedStepsAt("invoke::arg", args);
    assert Plan(h, I) == pre + mid + post;
    forall i | 0 <= i < |args|
      ensures (pre + mid + post)[2 + i] == mid[i]
    {
      Middle(pre, mid, post, i);
    }
  }

  /** getelementptr: the base, then operand k+1 as index k, then the number
      of indices and the inbounds marker. */
  lemma GepLayout(h: Host, I: Instruction)
    requires I.op.Gep?
    ensures var P := Plan(h, I); var xs := I.op.gepIndices;
      && |P| == |xs| + 3 + (if I.op.inBounds then 1 else 0)
      && P[1] == Operand("getelementptr::base", I.op.gepBase)
      && (forall k :: 0 <= k < |xs| ==> P[2 + k] == GepIndex(xs[k], k))
      && P[|xs| + 2] == Write("getelementptr::nindices", [NatToString(|xs|)])
      && (I.op.inBounds ==> P[|xs| + 3] == Write("getelementptr::inbounds", []))
  {
    var xs := I.op.gepIndices;
    var pre := [Write("getelementptr::instr", []), Operand("getelementptr::base", I.op.gepBase)];
    var mid := GepSteps(xs);
    var post := [Write("getelementptr::nindices", [NatToString(|xs|)])]
                + (if I.op.inBounds then [Write("getelementptr::inbounds", [])] else []);
    GepStepsAt(xs);
    assert Plan(h, I) == pre + mid + post;
    forall k | 0 <= k < |xs|
      ensures (pre + mid + post)[2 + k] == mid[k]
    {
      Middle(pre, mid, post, k);
    }
  }

  /** phi: the type, then entry i's value and block with index i, then the
      number of entries. */
  lemma PhiLayout(h: Host, I: Instruction)
    requires I.op.Phi?
    ensures var P := Plan(h, I); var ps := I.op.incoming;
      && |P| == 2 * |ps| + 3
      && P[1] == TypeFact("phi::type", I.self.ty)
      && (forall i :: 0 <= i < |ps| ==>
            && P[2 + 2 * i] == Indexed("phi::pair_value", ps[i].0, i)
            && P[3 + 2 * i] == Indexed("phi::pair_label", ps[i].1, i))
      && P[2 * |ps| + 2] == Write("phi::npairs", [NatToString(|ps|)])
  {
    var ps := I.op.incoming;
    var pre := [Write("phi::instr", []), TypeFact("phi::type", I.self.ty)];
    var post := [Write("phi::npairs", [NatToString(|ps|)])];
    assert Plan(h, I) == pre + PairSteps("phi::pair_value", "phi::pair_label", ps) + post;
    PairsAt(pre, post, "phi::pair_value", "phi::pair_label", ps);
  }

  lemma PairsAt(pre: seq<Step>, post: seq<Step>, p1: string, p2: string, ps: seq<(Value, Value)>)
    ensures var P := pre + PairSteps(p1, p2, ps) + post;
      && |P| == |pre| + 2 * |ps| + |post|
      && (forall i :: 0 <= i < |ps| ==>
            && P[|pre| + 2 * i] == Indexed(p1, ps[i].0, i)
            && P[|pre| + 2 * i + 1] == Indexed(p2, ps[i].1, i))
      && (forall j :: 0 <= j < |post| ==> P[|pre| + 2 * |ps| + j] == post[j])
  {
    var mid := PairSteps(p1, p2, ps);
    PairStepsAt(p1, p2, ps);
    forall i | 0 <= i < |ps|
      ensures (pre + mid + post)[|pre| + 2 * i] == mid[2 * i]
      ensures (pre + mid + post)[|pre| + 2 * i + 1] == mid[2 * i + 1]
    {
      Middle(pre, mid, post, 2 * i);
      Middle(pre, mid, post, 2 * i + 1);
    }
  }

  /** extractvalue: the base, then index i with its value, then the number
      of indices. */
  lemma ExtractValueLayout(h: Host, I: Instruction)
    requires I.op.ExtractValue?
    ensures var P := Plan(h, I); var xs := I.op.extractIndices;
      && |P| == |xs| + 3
      && P[1] == Operand("extractvalue::base", I.op.extractBase)
      && (forall i :: 0 <= i < |xs| ==>
            P[2 + i] == Write("extractvalue::index", [NatToString(i), NatToString(xs[i])]))
      && P[|xs| + 2] == Write("extractvalue::nindices", [NatToString(|xs|)])
  {
    var xs := I.op.extractIndices;
    var pre := [Write("extractvalue::instr", []), Operand("extractvalue::base", I.op.extractBase)];
    var mid := IndexSteps("extractvalue::index", xs);
    var post := [Write("extractvalue::nindices", [NatToString(|xs|)])];
    IndexStepsAt("extractvalue::index", xs);
    assert Plan(h, I) == pre + mid + post;
    forall i | 0 <= i < |xs|
      ensures (pre + mid + post)[2 + i] == mid[i]
    {
      Middle(pre, mid, post, i);
    }
  }

  /** insertvalue: the base and the inserted value, then index i with its
      value, then the number of indices. */
  lemma InsertValueLayout(h: Host, I: Instruction)
    requires I.op.InsertValue?
    ensures var P := Plan(h, I); var xs := I.op.insertIndices;
      && |P| == |xs| + 4
      && P[1] == Operand("insertvalue::base", I.op.insertBase)
      && P[2] == Operand("insertvalue::value", I.op.insertedValue)
      && (forall i :: 0 <= i < |xs| ==>
            P[3 + i] == Write("insertvalue::index", [NatToString(i), NatToString(xs[i])]))
      && P[|xs| + 3] == Write("insertvalue::nindices", [NatToString(|xs|)])
  {
    var xs := I.op.insertIndices;
    var pre := [Write("insertvalue::instr", []), Operand("insertvalue::base", I.op.insertBase),
                Operand("insertvalue::value", I.op.insertedValue)];
    var mid := IndexSteps("insertvalue::index", xs);
    var post := [Write("insertvalue::nindices", [NatToString(|xs|)])];
    IndexStepsAt("insertvalue::index", xs);
    assert Plan(h, I) == pre + mid + post;
    forall i | 0 <= i < |xs|
      ensures (pre + mid + post)[3 + i] == mid[i]
    {
      Middle(pre, mid, post, i);
    }
  }

  /** landingpad: the type and the cleanup marker, then clause i with index
      i as a catch or a filter clause, then the number of clauses. */
  lemma LandingPadLayout(h: Host, I: Instruction)
    requires I.op.LandingPad?
    ensures var P := Plan(h, I); var cs := I.op.clauses; var c := if I.op.cleanup then 3 else 2;
      && |P| == |cs| + c + 1
      && P[1] == TypeFact("landingpad::type", I.self.ty)
      && (I.op.cleanup ==> P[2] == Write("landingpad::cleanup", []))
      && (forall i :: 0 <= i < |cs| ==> P[c + i] == Indexed(ClausePred(cs[i]), cs[i].clause, i))
      && P[|cs| + c] == Write("landingpad::nclauses", [NatToString(|cs|)])
  {
    var cs := I.op.clauses;
    var pre := [Write("landingpad::instr", []), TypeFact("landingpad::type", I.self.ty)]
               + (if I.op.cleanup then [Write("landingpad::cleanup", [])] else []);
    var post := [Write("landingpad::nclauses", [NatToString(|cs|)])];
    assert Plan(h, I) == pre + ClauseSteps(cs) + post;
    ClausesAt(pre, post, cs);
  }

  lemma ClausesAt(pre: seq<Step>, post: seq<Step>, cs: seq<LandingPadClause>)
    ensures var P := pre + ClauseSteps(cs) + post;
      && |P| == |pre| + |cs| + |post|
      && (forall i :: 0 <= i < |cs| ==> P[|pre| + i] == Indexed(ClausePred(cs[i]), cs[i].clause, i))
      && (forall j :: 0 <= j < |post| ==> P[|pre| + |cs| + j] == post[j])
  {
    var mid := ClauseSteps(cs);
    ClauseStepsAt(cs);
    forall i | 0 <= i < |cs|
      ensures (pre + mid + post)[|pre| + i] == mid[i]
    {
      Middle(pre, mid, post, i);
    }
  }

  // ---------------------------------------------------------------------
  // Running a list of steps
  // ---------------------------------------------------------------------

  /** A run depends only on the steps it reaches. */
  lemma {:induction false} RunStepsPrefix(step: (GenState, Step) -> Result<GenState>, s: GenState,
                                          a: seq<Step>, b: seq<Step>, n: nat)
    requires n <= |a| && n <= |b| && a[..n] == b[..n]
    ensures RunSteps(step, s, a, n) == RunSteps(step, s, b, n)
  {
    if n > 0 {
      assert a[..n - 1] == a[..n][..n - 1] == b[..n][..n - 1] == b[..n - 1];
      assert a[n - 1] == a[..n][n - 1] == b[..n][n - 1] == b[n - 1];
      RunStepsPrefix(step, s, a, b, n - 1);
    }
  }

  /** Running a + b runs a, then b from where a stopped. */
  lemma {:induction false} RunConcat(step: (GenState, Step) -> Result<GenState>, s: GenState, a: seq<Step>, b: seq<Step>)
    ensures RunSteps(step, s, a + b, |a + b|) ==
      match RunSteps(step, s, a, |a|)
      case Err(e) => Err(e)
      case Ok(p) => RunSteps(step, p, b, |b|)
    decreases |b|
  {
    if |b| == 0 {
      assert a + b == a;
    } else {
      var b' := b[..|b| - 1];
      RunConcat(step, s, a, b');
      var ab := a + b;
      assert ab[..|ab| - 1] == a + b';
      assert ab[|ab| - 1] == b[|b| - 1];
      RunStepsPrefix(step, s, ab, a + b', |ab| - 1);
      match RunSteps(step, s, a, |a|)
      case Err(e) =>
      case Ok(p) =>
        RunStepsPrefix(step, p, b, b', |b| - 1);
    }
  }

  lemma {:induction false} RunStepsSound(step: (GenState, Step) -> Result<GenState>, s: GenState, steps: seq<Step>, n: nat)
    requires forall p: GenState, st: Step :: !st.Malformed? ==> step(p, st).Ok?
    requires n <= |steps|
    requires forall j :: 0 <= j < n ==> !steps[j].Malformed?
    ensures RunSteps(step, s, steps, n).Ok?
  {
    if n > 0 {
      RunStepsSound(step, s, steps, n - 1);
    }
  }

  /** The first Malformed step ends the run with its explanation. */
  lemma {:induction false} RunStepsErr(step: (GenState, Step) -> Result<GenState>, s: GenState, steps: seq<Step>, i: nat, n: nat)
    requires forall p: GenState, st: Step :: !st.Malformed? ==> step(p, st).Ok?
    requires forall p, w :: step(p, Malformed(w)) == Err(w)
    requires i < n <= |steps| && steps[i].Malformed?
    requires forall j :: 0 <= j < i ==> !steps[j].Malformed?
    ensures RunSteps(step, s, steps, n) == Err(steps[i].why)
  {
    if n == i + 1 {
      RunStepsSound(step, s, steps, i);
    } else {
      RunStepsErr(step, s, steps, i, n - 1);
    }
  }

  /** Once a run has failed, running further steps keeps the same error. */
  lemma {:induction false} RunStepsErrSticks(step: (GenState, Step) -> Result<GenState>, s: GenState, steps: seq<Step>, n: nat, m: nat)
    requires n <= m <= |steps| && RunSteps(step, s, steps, n).Err?
    ensures RunSteps(step, s, steps, m) == RunSteps(step, s, steps, n)
    decreases m
  {
    if m > n {
      RunStepsErrSticks(step, s, steps, n, m - 1);
    }
  }

  /** Only a Malformed step fails, and it fails with its explanation. */
  lemma StepperFails(g: TypeGraph, h: Host, iref: string)
    ensures forall p: GenState, st: Step :: !st.Malformed? ==> Stepper(g, h, iref)(p, st).Ok?
    ensures forall p, w :: Stepper(g, h, iref)(p, Malformed(w)) == Err(w)
  {
  }

  // ---------------------------------------------------------------------
  // Rejected instructions
  // ---------------------------------------------------------------------

  /** The instructions the visitor reports as a malformed module: a
      comparison with a BAD predicate and an atomicrmw with the BAD binop. */
  predicate Rejected(I: Instruction) {
    match I.op
    case ICmp(p, _, _) => p.BadFcmpPredicate? || p.BadIcmpPredicate?
    case FCmp(p, _, _) => p.BadFcmpPredicate? || p.BadIcmpPredicate?
    case AtomicRmw(_, _, _, op, _, _) => op.BadBinop?
    case _ => false
  }

  /** The explanation reported for a rejected instruction. */
  function RejectReason(I: Instruction): string {
    match I.op
    case ICmp(p, _, _) => if p.BadFcmpPredicate? then "bad fcmp predicate" else "bad icmp predicate"
    case FCmp(p, _, _) => if p.BadFcmpPredicate? then "bad fcmp predicate" else "bad icmp predicate"
    case _ => "bad atomicrmw binop"
  }

  lemma PlanSound(h: Host, I: Instruction)
    requires !Rejected(I)
    ensures forall st :: st in Plan(h, I) ==> !st.Malformed?
  {
    match I.op
    case Cast(_, _) =>
    case Binary(_, _, _, _) =>
    case Ret(_) =>
    case BrCond(_, _, _) =>
    case BrUncond(_) =>
    case Switch(_, _, _) =>
    case IndirectBr(_, _) =>
    case Invoke(_, _, _, _, _) =>
    case Resume(_) =>
    case Unreachable =>
    case Alloca(_, _, _) =>
    case Load(_, _, _, _, _) =>
    case VaArg(_) =>
    case ExtractValue(_, _) =>
    case Store(_, _, _, _, _, _) =>
    case CmpXchg(_, _, _, _, _, _, _) =>
    case AtomicRmw(_, _, _, _, _, _) =>
    case Fence(_, _) =>
    case Gep(_, _, _) =>
    case Phi(_) =>
    case Select(_, _, _) =>
    case InsertValue(_, _, _) =>
    case LandingPad(_, _) =>
    case Call(_, _, _, _) =>
    case DbgDeclare(_, _, _, _, _, _) =>
    case ICmp(_, _, _) =>
    case FCmp(_, _, _) =>
    case ExtractElement(_, _) =>
    case InsertElement(_, _, _) =>
    case ShuffleVector(_, _, _) =>
    case OtherInstr(_) =>
  }

  lemma BadStep(h: Host, I: Instruction) returns (i: nat)
    requires Rejected(I)
    ensures i < |Plan(h, I)| && Plan(h, I)[i] == Malformed(RejectReason(I))
    ensures forall j :: 0 <= j < i ==> !Plan(h, I)[j].Malformed?
  {
    if I.op.AtomicRmw? {
      i := if I.op.rmwVolatile then 4 else 3;
    } else {
      i := 1;
    }
  }

  /** The visitor fails exactly on the rejected instructions, with their
      explanation; every other instruction is visited to the end. */
  lemma VisitFails(g: TypeGraph, h: Host, s: GenState, I: Instruction)
    ensures Visit(g, h, s, I).Err? <==> Rejected(I)
    ensures Rejected(I) ==> Visit(g, h, s, I) == Err(RejectReason(I))
  {
    var P := Plan(h, I);
    var iref := InstructionRefmode(s.ctx);
    if Rejected(I) {
      var i := BadStep(h, I);
      StepperFails(g, h, iref);
      RunStepsErr(Stepper(g, h, iref), s, P, i, |P|);
    } else {
      PlanSound(h, I);
      StepperFails(g, h, iref);
      RunStepsSound(Stepper(g, h, iref), s, P, |P|);
    }
  }

  // ---------------------------------------------------------------------
  // What a run writes
  // ---------------------------------------------------------------------

  /** The predicates recordValue may write: those of writeConstant and writeAsm. */
  function OperandPreds(): set<string> {
    ConstantPreds() + {"inline_asm::id", "inline_asm::constraints", "inline_asm::text"}
  }

  /** recordValue only appends facts, all of them about constants or inline
      asm, and keeps the frames; a constant or an inline asm leaves the
      variable cache alone, and any other value writes nothing and is cached
      as a variable of its type under its refmode. */
  lemma RecordValueShape(g: TypeGraph, h: Host, s: GenState, v: Value, r: string, u: GenState)
    requires (r, u) == RecordValue(g, h, s, v)
    ensures s.facts <= u.facts
    ensures forall f :: f in u.facts[|s.facts|..] ==> f.pred in OperandPreds()
    ensures SameFrames(s.ctx, u.ctx)
    ensures v.kind.ConstantV? || v.kind.InlineAsmV? ==> u.vars == s.vars
    ensures !v.kind.ConstantV? && !v.kind.InlineAsmV? ==>
              u.facts == s.facts && u.vars == s.vars[r := v.ty] && u.types == s.types
  {
    if v.kind.ConstantV? {
      ConstantOperandShape(g, h, s, v, u);
    } else if v.kind.InlineAsmV? {
      AsmOperandShape(g, h, s, v, u);
    }
  }

  lemma ConstantOperandShape(g: TypeGraph, h: Host, s: GenState, v: Value, u: GenState)
    requires u == WriteConstant(g, h, s, v).1
    ensures s.facts <= u.facts
    ensures forall f :: f in u.facts[|s.facts|..] ==> f.pred in OperandPreds()
    ensures SameFrames(s.ctx, u.ctx) && u.vars == s.vars
  {
    WriteConstantAdvance(g, h, s, v);
    assert Added(s, u) == u.facts[|s.facts|..];
  }

  lemma AsmOperandShape(g: TypeGraph, h: Host, s: GenState, v: Value, u: GenState)
    requires v.kind.InlineAsmV? && u == WriteAsm(g, h, s, v).1
    ensures s.facts <= u.facts
    ensures forall f :: f in u.facts[|s.facts|..] ==> f.pred in OperandPreds()
    ensures SameFrames(s.ctx, u.ctx) && u.vars == s.vars
  {
    WriteAsmFacts(g, h, s, v);
  }

  /** A GEP index's fact, naming the operand's refmode `r`, and the
      operand's integer value about `r` when it fits in 16 bits. */
  ghost predicate GepIndexShown(facts: seq<Fact>, iref: string, v: Value, k: nat, r: string) {
    && Fact("getelementptr::index", [iref, NatToString(k), r]) in facts
    && (SmallIndex(v).Some? ==> Fact("constant::to_integer", [r, NatToString(SmallIndex(v).value)]) in facts)
  }

  /** The fact a step stands for, found in `facts`; an operand's own refmode
      depends on the state and is left open. */
  ghost predicate Shows(g: TypeGraph, facts: seq<Fact>, iref: string, st: Step) {
    match st
    case Operand(p, _) => exists r :: Fact(p, [iref, r]) in facts
    case Indexed(p, _, k) => exists r :: Fact(p, [iref, NatToString(k), r]) in facts
    case GepIndex(v, k) => exists r :: GepIndexShown(facts, iref, v, k, r)
    case Write(p, cols) => Fact(p, [iref] + cols) in facts
    case TypeFact(p, t) => Fact(p, [iref, TypeRefmode(g, t)]) in facts
    case Declare(_, _, _) => true
    case Malformed(_) => false
  }

  lemma InPrefix<T>(a: seq<T>, b: seq<T>, x: T)
    requires a <= b && x in a
    ensures x in b
  {
    var i :| 0 <= i < |a| && a[i] == x;
    assert b[i] == x;
  }

  lemma ShowsGrow(g: TypeGraph, a: seq<Fact>, b: seq<Fact>, iref: string, st: Step)
    requires a <= b && Shows(g, a, iref, st)
    ensures Shows(g, b, iref, st)
  {
    match st
    case Operand(p, _) =>
      var r :| Fact(p, [iref, r]) in a;
      InPrefix(a, b, Fact(p, [iref, r]));
    case Indexed(p, _, k) =>
      var r :| Fact(p, [iref, NatToString(k), r]) in a;
      InPrefix(a, b, Fact(p, [iref, NatToString(k), r]));
    case GepIndex(v, k) =>
      var r :| GepIndexShown(a, iref, v, k, r);
      InPrefix(a, b, Fact("getelementptr::index", [iref, NatToString(k), r]));
      if SmallIndex(v).Some? {
        InPrefix(a, b, Fact("constant::to_integer", [r, NatToString(SmallIndex(v).value)]));
      }
      assert GepIndexShown(b, iref, v, k, r);
    case Write(p, cols) => InPrefix(a, b, Fact(p, [iref] + cols));
    case TypeFact(p, t) => InPrefix(a, b, Fact(p, [iref, TypeRefmode(g, t)]));
    case Declare(_, _, _) =>
    case Malformed(_) =>
  }

  /** A step that succeeds only appends facts, among them the one it stands for. */
  lemma StepShows(g: TypeGraph, h: Host, s: GenState, iref: string, st: Step)
    requires RunStep(g, h, s, iref, st).Ok?
    ensures s.facts <= RunStep(g, h, s, iref, st).value.facts
    ensures Shows(g, RunStep(g, h, s, iref, st).value.facts, iref, st)
  {
    match st
    case Operand(p, v) => OperandShows(g, h, s, iref, p, v);
    case Indexed(p, v, k) => IndexedShows(g, h, s, iref, p, v, k);
    case GepIndex(v, k) =>
      var (r, w) := RecordValue(g, h, s, v);
      RecordValueShape(g, h, s, v, r, w);
      GepShows(g, h, s, iref, v, k, r, w);
    case Write(_, _) => PlainShows(g, h, s, iref, st);
    case TypeFact(_, _) => PlainShows(g, h, s, iref, st);
    case Declare(_, _, _) => PlainShows(g, h, s, iref, st);
    case Malformed(_) =>
  }

  /** The steps that record no operand. */
  lemma PlainShows(g: TypeGraph, h: Host, s: GenState, iref: string, st: Step)
    requires st.Write? || st.TypeFact? || st.Declare?
    ensures RunStep(g, h, s, iref, st).Ok?
    ensures s.facts <= RunStep(g, h, s, iref, st).value.facts
    ensures Shows(g, RunStep(g, h, s, iref, st).value.facts, iref, st)
  {
  }

  lemma OperandShows(g: TypeGraph, h: Host, s: GenState, iref: string, p: string, v: Value)
    ensures RunStep(g, h, s, iref, Operand(p, v)).Ok?
    ensures s.facts <= RunStep(g, h, s, iref, Operand(p, v)).value.facts
    ensures Shows(g, RunStep(g, h, s, iref, Operand(p, v)).value.facts, iref, Operand(p, v))
  {
    var (r, w) := RecordValue(g, h, s, v);
    RecordValueShape(g, h, s, v, r, w);
    Appended(s.facts, w.facts, Fact(p, [iref, r]));
  }

  lemma IndexedShows(g: TypeGraph, h: Host, s: GenState, iref: string, p: string, v: Value, k: nat)
    ensures RunStep(g, h, s, iref, Indexed(p, v, k)).Ok?
    ensures s.facts <= RunStep(g, h, s, iref, Indexed(p, v, k)).value.facts
    ensures Shows(g, RunStep(g, h, s, iref, Indexed(p, v, k)).value.facts, iref, Indexed(p, v, k))
  {
    var (r, w) := RecordValue(g, h, s, v);
    RecordValueShape(g, h, s, v, r, w);
    Appended(s.facts, w.facts, Fact(p, [iref, NatToString(k), r]));
  }

  lemma Appended(a: seq<Fact>, b: seq<Fact>, f: Fact)
    requires a <= b
    ensures a <= b + [f] && f in b + [f]
  {
  }

  /** The GEP index step writes the index fact, then `constant::to_integer`
      about the operand's refmode exactly when the index is a (splat) integer
      constant that fits in 16 bits, and with that value. */
  lemma GepShows(g: TypeGraph, h: Host, s: GenState, iref: string, v: Value, k: nat, r: string, w: GenState)
    requires (r, w) == RecordValue(g, h, s, v) && s.facts <= w.facts
    ensures RunStep(g, h, s, iref, GepIndex(v, k)).Ok?
    ensures s.facts <= w.facts <= RunStep(g, h, s, iref, GepIndex(v, k)).value.facts
    ensures GepIndexShown(RunStep(g, h, s, iref, GepIndex(v, k)).value.facts, iref, v, k, r)
    ensures forall n: nat ::
      Fact("constant::to_integer", [r, NatToString(n)]) in RunStep(g, h, s, iref, GepIndex(v, k)).value.facts[|w.facts|..]
      <==> SmallIndex(v) == Some(n)
  {
    var f := Fact("getelementptr::index", [iref, NatToString(k), r]);
    var w' := Emit(w, "getelementptr::index", [iref, NatToString(k), r]);
    Appended(s.facts, w.facts, f);
    var u := RunStep(g, h, s, iref, GepIndex(v, k)).value;
    if SmallIndex(v).Some? {
      var m := SmallIndex(v).value;
      var t := Fact("constant::to_integer", [r, NatToString(m)]);
      assert u.facts == w.facts + [f, t];
      assert u.facts[|w.facts|..] == [f, t];
      forall n: nat
        ensures Fact("constant::to_integer", [r, NatToString(n)]) in u.facts[|w.facts|..] <==> SmallIndex(v) == Some(n)
      {
        NatToStringInjective(n, m);
      }
    } else {
      assert u.facts == w.facts + [f];
      assert u.facts[|w.facts|..] == [f];
    }
  }

  lemma {:induction false} RunStepsShows(g: TypeGraph, step: (GenState, Step) -> Result<GenState>, iref: string,
                                         s: GenState, steps: seq<Step>, n: nat)
    requires forall p, st :: step(p, st).Ok? ==> p.facts <= step(p, st).value.facts
    requires forall p, st :: step(p, st).Ok? ==> Shows(g, step(p, st).value.facts, iref, st)
    requires n <= |steps| && RunSteps(step, s, steps, n).Ok?
    ensures s.facts <= RunSteps(step, s, steps, n).value.facts
    ensures forall k :: 0 <= k < n ==> Shows(g, RunSteps(step, s, steps, n).value.facts, iref, steps[k])
  {
    if n > 0 {
      RunStepsShows(g, step, iref, s, steps, n - 1);
      var p := RunSteps(step, s, steps, n - 1).value;
      var u := RunSteps(step, s, steps, n).value;
      assert step(p, steps[n - 1]) == Ok(u);
      forall k | 0 <= k < n - 1
        ensures Shows(g, u.facts, iref, steps[k])
      {
        ShowsGrow(g, p.facts, u.facts, iref, steps[k]);
      }
    }
  }

  lemma StepperShows(g: TypeGraph, h: Host, iref: string)
    ensures forall p, st :: Stepper(g, h, iref)(p, st).Ok? ==> p.facts <= Stepper(g, h, iref)(p, st).value.facts
    ensures forall p, st :: Stepper(g, h, iref)(p, st).Ok? ==> Shows(g, Stepper(g, h, iref)(p, st).value.facts, iref, st)
  {
    forall p, st | RunStep(g, h, p, iref, st).Ok? {
      StepShows(g, h, p, iref, st);
    }
  }

  /** A visit that succeeds keeps the facts written before it and writes, for
      every step of the instruction's template, the fact that step stands for. */
  lemma VisitShows(g: TypeGraph, h: Host, s: GenState, I: Instruction)
    requires Visit(g, h, s, I).Ok?
    ensures s.facts <= Visit(g, h, s, I).value.facts
    ensures forall k :: 0 <= k < |Plan(h, I)| ==>
      Shows(g, Visit(g, h, s, I).value.facts, InstructionRefmode(s.ctx), Plan(h, I)[k])
  {
    var iref := InstructionRefmode(s.ctx);
    StepperShows(g, h, iref);
    RunStepsShows(g, Stepper(g, h, iref), iref, s, Plan(h, I), |Plan(h, I)|);
  }

  // ---------------------------------------------------------------------
  // The visitor on the generator object
  // ---------------------------------------------------------------------

  /** A run's result as the generator reports it: no error and the state
      the run reaches, or the run's error. */
  predicate Outcome(r: Result<GenState>, err: Option<string>, now: GenState) {
    match r
    case Ok(u) => err.None? && now == u
    case Err(e) => err == Some(e)
  }

  /** recordValue on the generator. */
  method RecordValueM(gen: FactGenerator, v: Value) returns (r: string)
    requires gen.Valid()
    modifies gen, gen.ctx
    ensures gen.Valid() && gen.ctx == old(gen.ctx)
    ensures (r, gen.St()) == RecordValue(gen.graph, gen.host, old(gen.St()), v)
  {
    if v.kind.ConstantV? {
      r := WriteConstantM(gen, v);
    } else if v.kind.InlineAsmV? {
      r := WriteAsmM(gen, v);
    } else {
      r := gen.ValueRefmode(v);
      gen.RecordVariable(r, v.ty);
    }
  }

  /** The llvm.dbg.declare extras on the generator. */
  method WriteDeclare(gen: FactGenerator, addr: Value, dv: Option<DeclaredVar>, loc: Option<Loc>)
    requires gen.Valid()
    modifies gen, gen.ctx
    ensures gen.Valid() && gen.ctx == old(gen.ctx)
    ensures gen.St() == DeclareFacts(gen.graph, old(gen.St()), addr, dv, loc)
  {
    if !IsUndef(addr) {
      var r := gen.ValueRefmode(addr);
      if dv.Some? {
        gen.WriteFact("variable::source_name", [r, dv.value.name]);
      }
      if loc.Some? {
        gen.WriteFact("variable::pos", [r, NatToString(loc.value.line), NatToString(loc.value.col)]);
      }
    }
  }

  /** One step on the generator; a Malformed step changes nothing and
      reports its explanation. */
  method RunStepM(gen: FactGenerator, iref: string, st: Step) returns (err: Option<string>)
    requires gen.Valid()
    modifies gen, gen.ctx
    ensures gen.Valid() && gen.ctx == old(gen.ctx)
    ensures Outcome(RunStep(gen.graph, gen.host, old(gen.St()), iref, st), err, gen.St())
    ensures err.Some? ==> gen.St() == old(gen.St())
  {
    err := None;
    match st
    case Operand(pred, v) =>
      var r := RecordValueM(gen, v);
      gen.WriteFact(pred, [iref, r]);
    case Indexed(pred, v, k) =>
      var r := RecordValueM(gen, v);
      gen.WriteFact(pred, [iref, NatToString(k), r]);
    case GepIndex(v, k) =>
      var r := RecordValueM(gen, v);
      gen.WriteFact("getelementptr::index", [iref, NatToString(k), r]);
      var n := SmallIndex(v);
      if n.Some? {
        gen.WriteFact("constant::to_integer", [r, NatToString(n.value)]);
      }
    case Write(pred, cols) =>
      gen.WriteFact(pred, [iref] + cols);
    case TypeFact(pred, t) =>
      var tr := gen.RecordType(t);
      gen.WriteFact(pred, [iref, tr]);
    case Declare(addr, dv, loc) =>
      WriteDeclare(gen, addr, dv, loc);
    case Malformed(why) =>
      err := Some(why);
  }

  /** visit(I) on the generator: the template's steps in order, the first
      Malformed one stopping the visit with its explanation. */
  method VisitM(gen: FactGenerator, I: Instruction) returns (err: Option<string>)
    requires gen.Valid()
    modifies gen, gen.ctx
    ensures gen.Valid() && gen.ctx == old(gen.ctx)
    ensures Outcome(Visit(gen.graph, gen.host, old(gen.St()), I), err, gen.St())
  {
    var iref := gen.InstructionRefmode();
    err := RunStepsM(gen, iref, Plan(gen.host, I));
  }

  method RunStepsM(gen: FactGenerator, iref: string, steps: seq<Step>) returns (err: Option<string>)
    requires gen.Valid()
    modifies gen, gen.ctx
    ensures gen.Valid() && gen.ctx == old(gen.ctx)
    ensures Outcome(Run(gen.graph, gen.host, old(gen.St()), iref, steps), err, gen.St())
  {
    ghost var s0 := gen.St();
    err := None;
    var i := 0;
    while i < |steps|
      invariant 0 <= i <= |steps|
      invariant gen.Valid() && gen.ctx == old(gen.ctx)
      invariant RunSteps(Stepper(gen.graph, gen.host, iref), s0, steps, i) == Ok(gen.St()) && err.None?
    {
      err := RunOneM(gen, iref, steps, i, s0);
      if err.Some? {
        return;
      }
      i := i + 1;
    }
  }

  /** One step of the loop above: the run so far is extended by step `i`,
      and a failure there is the failure of the whole run. */
  method RunOneM(gen: FactGenerator, iref: string, steps: seq<Step>, i: nat, ghost s0: GenState)
    returns (err: Option<string>)
    requires gen.Valid() && i < |steps|
    requires RunSteps(Stepper(gen.graph, gen.host, iref), s0, steps, i) == Ok(gen.St())
    modifies gen, gen.ctx
    ensures gen.Valid() && gen.ctx == old(gen.ctx)
    ensures err.None? ==> RunSteps(Stepper(gen.graph, gen.host, iref), s0, steps, i + 1) == Ok(gen.St())
    ensures err.Some? ==> Run(gen.graph, gen.host, s0, iref, steps) == Err(err.value)
  {
    ghost var step := Stepper(gen.graph, gen.host, iref);
    ghost var p := gen.St();
    err := RunStepM(gen, iref, steps[i]);
    StepperApply(gen.graph, gen.host, iref, p, steps[i]);
    RunStepsNext(step, s0, steps, i, p);
    if err.Some? {
      RunStepsErrSticks(step, s0, steps, i + 1, |steps|);
    }
  }

  lemma StepperApply(g: TypeGraph, h: Host, iref: string, p: GenState, st: Step)
    ensures Stepper(g, h, iref)(p, st) == RunStep(g, h, p, iref, st)
  {
  }

  lemma RunStepsNext(step: (GenState, Step) -> Result<GenState>, s: GenState, steps: seq<Step>, i: nat, p: GenState)
    requires i < |steps| && RunSteps(step, s, steps, i) == Ok(p)
    ensures RunSteps(step, s, steps, i + 1) == step(p, steps[i])
  {
  }
}
