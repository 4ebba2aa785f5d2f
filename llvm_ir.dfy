// The LLVM entities the fact generator reads, as plain values: the type
// graph of the LLVM context, values with their identity, name, type and
// printed operand text, instructions by kind, basic blocks, functions, global
// variables, aliases and modules. Everything LLVM computes on the generator's
// behalf (printing, hashing, demangling, regular expressions, layout sizes)
// is an input: a field of these values or of `Host` and `DataLayout`.
module Llvm {
  import opened Common
  import opened LlvmEnums

  type TypeId = nat
  type ValueId = nat

  // ---------------------------------------------------------------------
  // Types
  // ---------------------------------------------------------------------

  datatype FpKind = Half | Float | Double | X86Fp80 | Fp128 | PpcFp128

  /** The kind of an LLVM type with the ids of its component types.
      `PointerTy(None, _)` is an opaque pointer; `VectorTy(_, None)` is a
      scalable vector; `OtherTy` stands for token, bfloat, x86_amx and typed
      pointer types, which the generator does not handle. */
  datatype TypeKind =
    | VoidTy | LabelTy | MetadataTy | X86MmxTy
    | FloatingTy(fp: FpKind)
    | IntegerTy(bits: nat)
    | FunctionTy(ret: TypeId, params: seq<TypeId>, varArg: bool)
    | StructTy(name: string, literal: bool, isOpaque: bool, fields: seq<TypeId>)
    | ArrayTy(elem: TypeId, count: nat)
    | PointerTy(pointee: Option<TypeId>, addrSpace: nat)
    | VectorTy(elem: TypeId, fixedCount: Option<nat>)
    | OtherTy(kindName: string)

  /** A type node: its kind, the text `Type::print` produces, the object
      address an unnamed identified struct is printed with, and `isSized`. */
  datatype TypeNode = TypeNode(kind: TypeKind, printed: string, address: string, sized: bool)

  /** All types of the LLVM context, keyed by identity. */
  type TypeGraph = map<TypeId, TypeNode>

  /** The node of a type id; an id outside the graph reads as an unsized
      type of unhandled kind with no components. */
  function Ty(g: TypeGraph, t: TypeId): TypeNode {
    if t in g then g[t] else TypeNode(OtherTy("missing"), "", "", false)
  }

  predicate IsVoid(g: TypeGraph, t: TypeId) { Ty(g, t).kind.VoidTy? }

  predicate IsMetadataType(g: TypeGraph, t: TypeId) { Ty(g, t).kind.MetadataTy? }

  /** The component types the generator follows from a type: the element of
      an array or vector, the pointee of a non-opaque pointer, the fields of a
      non-opaque struct, and the return and parameter types of a function. */
  function Components(k: TypeKind): seq<TypeId> {
    match k
    case ArrayTy(e, _) => [e]
    case VectorTy(e, _) => [e]
    case PointerTy(p, _) => if p.Some? then [p.value] else []
    case StructTy(_, _, isOpaque, fs) => if isOpaque then [] else fs
    case FunctionTy(r, ps, _) => [r] + ps
    case _ => []
  }

  /** Sizes and offsets computed by the module's DataLayout. */
  datatype DataLayout = DataLayout(
    allocSize: TypeId -> nat,
    storeSize: TypeId -> nat,
    elementOffset: (TypeId, nat) -> nat,
    elementOffsetInBits: (TypeId, nat) -> nat)

  // ---------------------------------------------------------------------
  // Values
  // ---------------------------------------------------------------------

  /** An LLVM value: its identity, its name ("" when unnamed), its type, its
      kind, and the text `printAsOperand` prints for it without its type. */
  datatype Value = Value(id: ValueId, name: string, ty: TypeId, kind: ValueKind, printed: string)

  datatype ValueKind =
    | ArgumentV
    | BlockV
    | InstructionV
    | InlineAsmV(asmString: string, constraints: string)
    | MetadataV(md: Metadata)
    | ConstantV(c: ConstantKind)
    | OtherV

  /** The metadata wrapped by a MetadataAsValue: nodes, strings and constants
      print themselves; a local (non-constant) value is spelled out by the
      generator from the wrapped value. */
  datatype Metadata =
    | NodeMd(text: string)
    | StringMd(text: string)
    | ConstantMd(text: string)
    | LocalMd(inner: Value)

  datatype CastOp =
    | Trunc | ZExt | SExt | FpTrunc | FpExt | FpToUi | FpToSi | UiToFp | SiToFp
    | PtrToInt | IntToPtr | BitCast | AddrSpaceCast

  datatype ExprOp = CastE(cast: CastOp) | GepE | OtherE(opcodeName: string)

  /** The constant classes the generator distinguishes. `IntC` carries the
      integer's value read as unsigned. */
  datatype ConstantKind =
    | NullPtrC
    | IntC(unsignedValue: nat)
    | FpC
    | FunctionC
    | GlobalVarC
    | AliasC
    | ExprC(op: ExprOp, operands: seq<Value>)
    | ArrayC(elems: seq<Value>)
    | StructC(elems: seq<Value>)
    | VectorC(elems: seq<Value>)
    | UndefC
    | OtherC

  predicate HasName(v: Value) { |v.name| > 0 }

  predicate IsConstant(v: Value) { v.kind.ConstantV? }

  predicate IsGlobalValue(v: Value) {
    v.kind.ConstantV? && (v.kind.c.FunctionC? || v.kind.c.GlobalVarC? || v.kind.c.AliasC?)
  }

  predicate IsUndef(v: Value) { v.kind.ConstantV? && v.kind.c.UndefC? }

  /** A constant vector whose elements are all the integer constant `n`. */
  predicate IntSplat(elems: seq<Value>, n: nat) {
    |elems| > 0 && forall i :: 0 <= i < |elems| ==> elems[i].kind == ConstantV(IntC(n))
  }

  /** `Constant::getUniqueInteger`, read as unsigned: an integer constant's
      value, or the common element of a splat vector of integer constants.
      Elsewhere LLVM's own assertion fails, and the result is None. */
  function UniqueInteger(v: Value): (r: Option<nat>)
    ensures forall n: nat :: r == Some(n) <==>
      v.kind == ConstantV(IntC(n)) || (v.kind.ConstantV? && v.kind.c.VectorC? && IntSplat(v.kind.c.elems, n))
  {
    if !v.kind.ConstantV? then None
    else match v.kind.c
      case IntC(n) => Some(n)
      case VectorC(es) =>
        if |es| > 0 && es[0].kind.ConstantV? && es[0].kind.c.IntC? && IntSplat(es, es[0].kind.c.unsignedValue)
        then Some(es[0].kind.c.unsignedValue) else None
      case _ => None
  }

  // ---------------------------------------------------------------------
  // Instructions
  // ---------------------------------------------------------------------

  datatype BinOp =
    | Add | FAdd | Sub | FSub | Mul | FMul | UDiv | SDiv | FDiv | URem | SRem | FRem
    | Shl | LShr | AShr | And | Or | Xor

  /** Fast-math flags of a floating-point operation. */
  datatype FastMath = FastMath(
    reassoc: bool, nnan: bool, ninf: bool, nsz: bool, arcp: bool, contract: bool, afn: bool)

  /** Optimisation flags carried by a binary operator. */
  datatype BinFlags = BinFlags(nuw: bool, nsw: bool, exact: bool, fmf: FastMath)

  datatype CmpPredicate =
    | FcmpFalse | FcmpOeq | FcmpOgt | FcmpOge | FcmpOlt | FcmpOle | FcmpOne | FcmpOrd
    | FcmpUno | FcmpUeq | FcmpUgt | FcmpUge | FcmpUlt | FcmpUle | FcmpUne | FcmpTrue
    | IcmpEq | IcmpNe | IcmpUgt | IcmpUge | IcmpUlt | IcmpUle | IcmpSgt | IcmpSge
    | IcmpSlt | IcmpSle
    | BadFcmpPredicate | BadIcmpPredicate

  datatype RmwBinOp =
    | Xchg | RmwAdd | RmwSub | RmwAnd | Nand | RmwOr | RmwXor | Max | Min | UMax | UMin
    | RmwFAdd | RmwFSub | FMax | FMin | BadBinop

  /** The variable a `llvm.dbg.declare` describes: its DILocalVariable node
      and that variable's source name. */
  datatype DeclaredVar = DeclaredVar(node: nat, name: string)

  datatype LandingPadClause = LandingPadClause(isCatch: bool, clause: Value)

  /** The operands and attributes of each instruction kind, in the positions
      the generator reads them. A `Switch` case and a `Phi` entry list a value
      with its block; `absent` alloca array sizes mean a single element. */
  datatype InstrOp =
    | Cast(castOp: CastOp, operand: Value)
    | Binary(binOp: BinOp, lhs: Value, rhs: Value, flags: BinFlags)
    | Ret(retValue: Option<Value>)
    | BrCond(condition: Value, op1: Value, op2: Value)
    | BrUncond(op0: Value)
    | Switch(switchValue: Value, defaultDest: Value, cases: seq<(Value, Value)>)
    | IndirectBr(address: Value, labels: seq<Value>)
    | Invoke(invokee: Value, invokeArgs: seq<Value>, normalDest: Value, unwindDest: Value,
             invokeConv: CallingConv)
    | Resume(resumed: Value)
    | Unreachable
    | Alloca(allocatedType: TypeId, arraySize: Option<Value>, allocaAlignLog2: nat)
    | Load(loadAddress: Value, loadOrdering: AtomicOrdering, loadSingleThread: bool,
           loadAlignLog2: nat, loadVolatile: bool)
    | VaArg(vaList: Value)
    | ExtractValue(extractBase: Value, extractIndices: seq<nat>)
    | Store(storedValue: Value, storeAddress: Value, storeOrdering: AtomicOrdering,
            storeSingleThread: bool, storeAlignLog2: nat, storeVolatile: bool)
    | CmpXchg(cmpAddress: Value, cmpValue: Value, newValue: Value, cmpVolatile: bool,
              successOrdering: AtomicOrdering, failureOrdering: AtomicOrdering,
              cmpSingleThread: bool)
    | AtomicRmw(rmwAddress: Value, rmwValue: Value, rmwVolatile: bool, rmwOp: RmwBinOp,
                rmwOrdering: AtomicOrdering, rmwSingleThread: bool)
    | Fence(fenceOrdering: AtomicOrdering, fenceSingleThread: bool)
    | Gep(gepBase: Value, gepIndices: seq<Value>, inBounds: bool)
    | Phi(incoming: seq<(Value, Value)>)
    | Select(selCondition: Value, selTrue: Value, selFalse: Value)
    | InsertValue(insertBase: Value, insertedValue: Value, insertIndices: seq<nat>)
    | LandingPad(cleanup: bool, clauses: seq<LandingPadClause>)
    | Call(callee: Value, callArgs: seq<Value>, tail: bool, callConv: CallingConv)
    | DbgDeclare(declCallee: Value, declArgs: seq<Value>, declTail: bool,
                 declConv: CallingConv, declAddress: Value, declVar: Option<DeclaredVar>)
    | ICmp(icmpPred: CmpPredicate, icmpLhs: Value, icmpRhs: Value)
    | FCmp(fcmpPred: CmpPredicate, fcmpLhs: Value, fcmpRhs: Value)
    | ExtractElement(eeVector: Value, eeIndex: Value)
    | InsertElement(ieVector: Value, ieValue: Value, ieIndex: Value)
    | ShuffleVector(svFirst: Value, svSecond: Value, svMask: Value)
    | OtherInstr(opcodeName: string)

  datatype Loc = Loc(line: nat, col: nat)

  /** An instruction: the value it defines (its type is void when it defines
      none), its operation, how many metadata attachments it carries, and its
      debug location. */
  datatype Instruction = Instruction(self: Value, op: InstrOp, mdCount: nat, debugLoc: Option<Loc>)

  /** A basic block: its label value, its instructions in order and its CFG
      predecessors (block values). */
  datatype Block = Block(self: Value, instrs: seq<Instruction>, preds: seq<Value>)

  // ---------------------------------------------------------------------
  // Functions, globals, modules
  // ---------------------------------------------------------------------

  datatype AttrIndex = FunctionIdx | ReturnIdx | ArgIdx(arg: nat)

  /** One attribute: its `getAsString` text and whether it is a string
      (target-dependent) attribute. */
  datatype Attribute = Attribute(text: string, isString: bool)

  datatype AttrSlot = AttrSlot(index: AttrIndex, attrs: seq<Attribute>)

  /** An attribute list: its slots in iteration order, and the text
      `getAsString(ReturnIndex)` gives for the return slot. */
  datatype AttributeList = AttributeList(slots: seq<AttrSlot>, returnText: string)

  /** Whether the list holds any return attribute. */
  predicate HasReturnAttrs(al: AttributeList) {
    exists i :: 0 <= i < |al.slots| && al.slots[i].index.ReturnIdx? && |al.slots[i].attrs| > 0
  }

  datatype Function = Function(
    self: Value,
    fnType: TypeId,
    visibility: Visibility,
    linkage: Linkage,
    alignment: nat,
    gc: Option<string>,
    personality: Option<Value>,
    conv: CallingConv,
    globalUnnamedAddr: bool,
    isDeclaration: bool,
    section: Option<string>,
    attributes: AttributeList,
    args: seq<Value>,
    blocks: seq<Block>)

  datatype GlobalVar = GlobalVar(
    self: Value,
    visibility: Visibility,
    linkage: Linkage,
    threadLocal: ThreadLocalMode,
    initializer: Option<Value>,
    externallyInitialized: bool,
    isConstant: bool,
    section: Option<string>,
    alignment: nat)

  datatype Alias = Alias(self: Value, visibility: Visibility, linkage: Linkage, aliasee: Option<Value>)

  datatype Module = Module(globals: seq<GlobalVar>, aliases: seq<Alias>, functions: seq<Function>)

  /** Library behaviour the generator calls but which is not part of it:
      `boost::hash` of a string, `__cxa_demangle` (None on failure),
      `std::regex_search(name, regex(pattern))`, the what() text of the
      `std::regex_error` that constructing `std::regex(pattern)` throws
      (None when the ECMAScript grammar accepts the pattern), the text of a calling
      convention the table does not list, `DINode::splitFlags` followed
      by `getFlagString`, and `dwarf::TagString` and
      `dwarf::VirtualityString`. */
  datatype Host = Host(
    hash: string -> nat,
    demangle: string -> Option<string>,
    regexSearch: (string, string) -> bool,
    regexError: string -> Option<string>,
    unlistedConvName: nat -> string,
    flagNames: nat -> seq<string>,
    tagString: nat -> string,
    virtualityString: nat -> string)

  /** The calling-convention column: the table's name, or the library's text
      for a convention the table does not list. */
  function ConvText(h: Host, cc: CallingConv): string {
    match CallingConvName(cc)
    case Some(n) => n
    case None => if cc.OtherConv? then h.unlistedConvName(cc.id) else h.unlistedConvName(0)
  }
}
