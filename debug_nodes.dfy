// The debug-metadata graph that the debug-info processor walks, and what
// the writer of each node kind emits for a node. A writer is a fixed
// template of steps. Each step writes one fact about the node; a step whose
// fact names another node first records that node through a memoised
// recorder (a step naming a constant first writes the constant through the
// fact generator), and the id it gets back is the fact's last column.
// Running the steps is the recorder's business (module DebugRecord); here a
// template is a value, so the shape of each kind can be stated on its own.
module DebugNodes {
  import opened Common
  import Llvm

  /** A metadata node's identity: its address. */
  type NodeId = nat

  // The DWARF tag encodings the writers test.
  const TagArrayType: nat := 0x01
  const TagClassType: nat := 0x02
  const TagEnumerationType: nat := 0x04
  const TagStructureType: nat := 0x13
  const TagSubroutineType: nat := 0x15
  const TagTypedef: nat := 0x16
  const TagUnionType: nat := 0x17
  const TagConstType: nat := 0x26
  const TagRestrictType: nat := 0x37

  // ---------------------------------------------------------------------
  // Nodes
  // ---------------------------------------------------------------------

  /** What every DIType carries. Sizes are in bits. */
  datatype TypeInfo = TypeInfo(
    name: string, line: nat, tag: nat,
    sizeInBits: nat, alignInBits: nat, offsetInBits: nat,
    scope: Option<NodeId>, flags: nat)

  datatype SubprogramInfo = SubprogramInfo(
    name: string, file: Option<NodeId>, scope: Option<NodeId>,
    linkageName: string, typ: Option<NodeId>, line: nat, scopeLine: nat,
    isDefinition: bool, isLocalToUnit: bool, isOptimized: bool,
    containingType: Option<NodeId>, declaration: Option<NodeId>,
    virtuality: nat, virtualIndex: nat, flags: nat, templateParams: seq<NodeId>)

  /** What every DIVariable carries. */
  datatype VarInfo = VarInfo(
    name: string, typ: Option<NodeId>, scope: Option<NodeId>, line: nat, file: Option<NodeId>)

  datatype VarKind =
    | GlobalVar(linkageName: string, isDefinition: bool, isLocalToUnit: bool,
                staticMemberDecl: Option<NodeId>)
    | LocalVar(arg: nat, isArtificial: bool, isObjectPointer: bool)

  /** An entry of a subroutine type's type array: null, a string, or a node. */
  datatype ArrayEntry = NullEntry | StringEntry(s: string) | NodeEntry(id: NodeId)

  /** A template value parameter's value. An operand of a tuple is a node
      or some other metadata (None). */
  datatype TplValue =
    | TupleValue(items: seq<Option<NodeId>>)
    | StringValue(s: string)
    | ConstantValue(c: Option<Llvm.Value>)
    | OtherValue

  datatype TplKind = TypeParam | ValueParam(value: TplValue)

  /** The entity of an imported entity: a string or a node. */
  datatype Entity = StringEntity(s: string) | NodeEntity(id: NodeId)

  /** The node classes the writers know, and the rest. `OtherTypeNode` is a
      DIType of no class the type writer handles; `OtherScopeNode` a scope
      of no class the scope writer handles (a compile unit, a module). */
  datatype DiNode =
    | FileNode(filename: string, directory: string)
    | NamespaceNode(name: string, file: Option<NodeId>, scope: Option<NodeId>)
    | LexBlockNode(line: nat, column: nat, file: Option<NodeId>, scope: Option<NodeId>)
    | LexBlockFileNode(discriminator: nat, file: Option<NodeId>, scope: Option<NodeId>)
    | SubprogramNode(sp: SubprogramInfo)
    | BasicTypeNode(ty: TypeInfo)
    | CompositeTypeNode(ty: TypeInfo, identifier: string, elements: seq<NodeId>,
                        baseType: Option<NodeId>, vtableHolder: Option<NodeId>,
                        templateParams: seq<NodeId>, file: Option<NodeId>)
    | DerivedTypeNode(ty: TypeInfo, baseType: Option<NodeId>, file: Option<NodeId>)
    | SubroutineTypeNode(ty: TypeInfo, typeArray: seq<ArrayEntry>)
    | OtherTypeNode(ty: TypeInfo)
    | TemplateParamNode(name: string, typ: Option<NodeId>, tplKind: TplKind)
    | VariableNode(v: VarInfo, varKind: VarKind)
    // `value` is the int64_t that getLimitedValue() of the enumerator's
    // APInt reads as unsigned, so a negative enumerator of a type narrower
    // than 64 bits appears as its unsigned value, not the enumerator itself
    | EnumeratorNode(name: string, value: int)
    | SubrangeNode(count: Option<int>, lowerBound: int)
    | ImportedEntityNode(name: string, line: nat, scope: Option<NodeId>, entity: Entity)
    | LocationNode(line: nat, column: nat, scope: Option<NodeId>, inlinedAt: Option<NodeId>)
    | OtherScopeNode
    | OtherNode

  /** The metadata of a module: its nodes by identity, the text each node
      prints as (`!7`), and the LLVM release the generator is built against. */
  datatype DiGraph = DiGraph(nodes: map<NodeId, DiNode>, printed: NodeId -> string, llvmMajor: nat)

  predicate IsType(node: DiNode) {
    node.BasicTypeNode? || node.CompositeTypeNode? || node.DerivedTypeNode?
    || node.SubroutineTypeNode? || node.OtherTypeNode?
  }

  predicate IsScope(node: DiNode) {
    node.FileNode? || node.NamespaceNode? || node.LexBlockNode? || node.LexBlockFileNode?
    || node.SubprogramNode? || IsType(node) || node.OtherScopeNode?
  }

  // ---------------------------------------------------------------------
  // Predicates
  // ---------------------------------------------------------------------

  datatype Group =
    | DIFile | DINamespace | DILexBlock | DILexBlockFile | DISubprogram
    | DIType | DIBasicType | DICompositeType | DIDerivedType | DISubroutineType
    | DITemplateParam | DITemplateTypeParam | DITemplateValueParam
    | DIVariable | DIGlobalVar | DILocalVar | DIEnumerator | DISubrange
    | DIImportedEntity | DILocation

  /** A member of a group. A union attribute has a `::node` and a `::raw`
      member; the writers use the `::node` one, and the `::raw` one only for
      an imported entity named by a string. */
  datatype Attr =
    | Id | Name | Filename | Directory | File | Scope | Line | Column | Discriminator
    | ScopeNode | LinkageName | Type | ScopeLine | IsDefinition | IsLocalToUnit | IsOptimized
    | ContainingTypeNode | Declaration | Virtuality | VirtualIndex | Flag | TemplateParam
    | BitSize | BitAlign | BitOffset | Structures | Classes | Arrays | Unions | Enumerations
    | Kind | AbiId | Field | Enumerator | Subrange | BaseTypeNode | VTableNode
    | RawTypeElem | TypeElem | TypeNode | Elements | Value | StaticDataMemberDecl
    | ArgNum | Variable | LowerBound | Count | EntityRaw | EntityNode | InlinedAt

  datatype Pred = Pred(group: Group, attr: Attr)

  function GroupName(g: Group): string {
    match g
    case DIFile => "di_file"
    case DINamespace => "di_namespace"
    case DILexBlock => "di_lex_block"
    case DILexBlockFile => "di_lex_block_file"
    case DISubprogram => "di_subprogram"
    case DIType => "di_type"
    case DIBasicType => "di_basic_type"
    case DICompositeType => "di_composite_type"
    case DIDerivedType => "di_derived_type"
    case DISubroutineType => "di_subroutine_type"
    case DITemplateParam => "di_template_param"
    case DITemplateTypeParam => "di_template_type_param"
    case DITemplateValueParam => "di_template_value_param"
    case DIVariable => "di_variable"
    case DIGlobalVar => "di_global_var"
    case DILocalVar => "di_local_var"
    case DIEnumerator => "di_enumerator"
    case DISubrange => "di_subrange"
    case DIImportedEntity => "di_imported_entity"
    case DILocation => "di_location"
  }

  function AttrName(a: Attr): string {
    match a
    case Id => "id"
    case Name => "name"
    case Filename => "filename"
    case Directory => "directory"
    case File => "file"
    case Scope => "scope"
    case Line => "line"
    case Column => "column"
    case Discriminator => "discriminator"
    case ScopeNode => "scope::node"
    case LinkageName => "linkage_name"
    case Type => "type"
    case ScopeLine => "scope_line"
    case IsDefinition => "is_definition"
    case IsLocalToUnit => "is_local_to_unit"
    case IsOptimized => "is_optimized"
    case ContainingTypeNode => "containing_type::node"
    case Declaration => "declaration"
    case Virtuality => "virtuality"
    case VirtualIndex => "virtual_index"
    case Flag => "flag"
    case TemplateParam => "template_param"
    case BitSize => "bitsize"
    case BitAlign => "bitalign"
    case BitOffset => "bitoffset"
    case Structures => "structures"
    case Classes => "classes"
    case Arrays => "arrays"
    case Unions => "unions"
    case Enumerations => "enumerations"
    case Kind => "kind"
    case AbiId => "abi_id"
    case Field => "field"
    case Enumerator => "enumerator"
    case Subrange => "subrange"
    case BaseTypeNode => "basetype::node"
    case VTableNode => "vtable::node"
    case RawTypeElem => "raw_type_elem"
    case TypeElem => "type_elem"
    case TypeNode => "type::node"
    case Elements => "elements"
    case Value => "value"
    case StaticDataMemberDecl => "static_data_member_decl"
    case ArgNum => "arg_num"
    case Variable => "variable"
    case LowerBound => "lower_bound"
    case Count => "count"
    case EntityRaw => "entity::raw"
    case EntityNode => "entity::node"
    case InlinedAt => "inlined_at"
  }

  /** The relation a fact of this predicate is written to. */
  function PredName(p: Pred): string {
    GroupName(p.group) + "::" + AttrName(p.attr)
  }

  // ---------------------------------------------------------------------
  // Steps and templates
  // ---------------------------------------------------------------------

  /** The memoised recorders; each passes a node of its class to its writer. */
  datatype Recorder =
    | FileR | NamespaceR | ScopeR | TypeR | SubprogramR | TemplateParamR | VariableR
    | EnumeratorR | SubrangeR | ImportedEntityR | LocationR

  /** One action of a writer: a fact; a child recorded, then a fact whose
      last column is the child's id; a constant written, then a fact whose
      last column is the constant's id. */
  datatype Step =
    | Put(pred: Pred, cols: seq<string>)
    | PutChild(recorder: Recorder, child: NodeId, pred: Pred, cols: seq<string>)
    | PutConstant(c: Llvm.Value, pred: Pred, cols: seq<string>)

  /** Every step writes a fact about node `n`: its first column. */
  predicate About(steps: seq<Step>, n: string) {
    forall s :: s in steps ==> |s.cols| > 0 && s.cols[0] == n
  }

  function PutIf(c: bool, p: Pred, cols: seq<string>): seq<Step> {
    if c then [Put(p, cols)] else []
  }

  /** A child present or absent: when present it is recorded and named. */
  function Child(k: Recorder, child: Option<NodeId>, p: Pred, n: string): seq<Step> {
    if child.Some? then [PutChild(k, child.value, p, [n])] else []
  }

  /** One fact per name, in the order given. */
  function Named(p: Pred, n: string, names: seq<string>): (r: seq<Step>)
    ensures |r| == |names|
    ensures forall i :: 0 <= i < |names| ==> r[i] == Put(p, [n, names[i]])
    ensures forall s :: s in r ==> s.Put? && s.pred == p && |s.cols| == 2 && s.cols[0] == n
  {
    if names == [] then [] else [Put(p, [n, names[0]])] + Named(p, n, names[1..])
  }

  /** recordFlags: nothing for no flags, otherwise one fact per flag the
      library splits the word into, in its order. */
  function FlagSteps(h: Llvm.Host, p: Pred, n: string, flags: nat): (r: seq<Step>)
    ensures forall s :: s in r ==> s.Put? && s.pred == p && |s.cols| == 2 && s.cols[0] == n
  {
    if flags == 0 then [] else Named(p, n, h.flagNames(flags))
  }

  /** A list of children, each recorded and named with its position,
      counting from `from`. */
  function Indexed(k: Recorder, children: seq<NodeId>, from: nat, p: Pred, n: string): (r: seq<Step>)
    ensures |r| == |children|
    ensures forall i :: 0 <= i < |children| ==>
      r[i] == PutChild(k, children[i], p, [n, NatToString(from + i)])
    ensures forall s :: s in r ==> s.PutChild? && s.recorder == k && s.pred == p && |s.cols| == 2 && s.cols[0] == n
    decreases |children|
  {
    if children == [] then []
    else [PutChild(k, children[0], p, [n, NatToString(from)])] + Indexed(k, children[1..], from + 1, p, n)
  }

  // write_di_file
  function FileSteps(node: DiNode, n: string): (r: seq<Step>)
    requires node.FileNode?
    ensures r != [] && r[0] == Put(Pred(DIFile, Id), [n]) && About(r, n)
  {
    [Put(Pred(DIFile, Id), [n]),
     Put(Pred(DIFile, Filename), [n, node.filename]),
     Put(Pred(DIFile, Directory), [n, node.directory])]
  }

  // write_di_namespace (LLVM 5 and later: no line)
  function NamespaceSteps(node: DiNode, n: string): (r: seq<Step>)
    requires node.NamespaceNode?
    ensures r != [] && r[0] == Put(Pred(DINamespace, Id), [n]) && About(r, n)
  {
    [Put(Pred(DINamespace, Id), [n]), Put(Pred(DINamespace, Name), [n, node.name])]
    + Child(FileR, node.file, Pred(DINamespace, File), n)
    + Child(ScopeR, node.scope, Pred(DINamespace, Scope), n)
  }

  // write_di_lex_block
  function LexBlockSteps(node: DiNode, n: string): (r: seq<Step>)
    requires node.LexBlockNode?
    ensures r != [] && r[0] == Put(Pred(DILexBlock, Id), [n]) && About(r, n)
  {
    [Put(Pred(DILexBlock, Id), [n]),
     Put(Pred(DILexBlock, Line), [n, NatToString(node.line)]),
     Put(Pred(DILexBlock, Column), [n, NatToString(node.column)])]
    + Child(FileR, node.file, Pred(DILexBlock, File), n)
    + Child(ScopeR, node.scope, Pred(DILexBlock, Scope), n)
  }

  // write_di_lex_block_file
  function LexBlockFileSteps(node: DiNode, n: string): (r: seq<Step>)
    requires node.LexBlockFileNode?
    ensures r != [] && r[0] == Put(Pred(DILexBlockFile, Id), [n]) && About(r, n)
  {
    [Put(Pred(DILexBlockFile, Id), [n]),
     Put(Pred(DILexBlockFile, Discriminator), [n, NatToString(node.discriminator)])]
    + Child(FileR, node.file, Pred(DILexBlockFile, File), n)
    + Child(ScopeR, node.scope, Pred(DILexBlockFile, Scope), n)
  }

  // write_di_subprogram (LLVM 4 and later: no function, no variables), in
  // five sections: the generic scope properties, the linkage name, type and
  // lines, the three flags, the containing type and declaration, and the
  // virtuality, flags and template parameters.
  function SubprogramSteps(h: Llvm.Host, sp: SubprogramInfo, n: string): (r: seq<Step>)
    ensures r != [] && r[0] == Put(Pred(DISubprogram, Id), [n]) && About(r, n)
  {
    SubprogramScopeSteps(sp, n) + SubprogramTypeSteps(sp, n) + SubprogramFlagSteps(sp, n)
    + SubprogramRefSteps(sp, n) + SubprogramTailSteps(h, sp, n)
  }

  function SubprogramScopeSteps(sp: SubprogramInfo, n: string): (r: seq<Step>)
    ensures r != [] && r[0] == Put(Pred(DISubprogram, Id), [n]) && About(r, n)
    ensures forall s :: s in r ==> s.pred.group == DISubprogram && s.pred.attr in {Id, Name, File, ScopeNode}
  {
    [Put(Pred(DISubprogram, Id), [n])]
    + PutIf(sp.name != "", Pred(DISubprogram, Name), [n, sp.name])
    + Child(FileR, sp.file, Pred(DISubprogram, File), n)
    + Child(ScopeR, sp.scope, Pred(DISubprogram, ScopeNode), n)
  }

  function SubprogramTypeSteps(sp: SubprogramInfo, n: string): (r: seq<Step>)
    ensures About(r, n)
    ensures forall s :: s in r ==> s.pred.group == DISubprogram && s.pred.attr in {LinkageName, Type, Line, ScopeLine}
  {
    PutIf(sp.linkageName != "", Pred(DISubprogram, LinkageName), [n, sp.linkageName])
    + Child(TypeR, sp.typ, Pred(DISubprogram, Type), n)
    + [Put(Pred(DISubprogram, Line), [n, NatToString(sp.line)]),
       Put(Pred(DISubprogram, ScopeLine), [n, NatToString(sp.scopeLine)])]
  }

  function SubprogramFlagSteps(sp: SubprogramInfo, n: string): (r: seq<Step>)
    ensures About(r, n)
    ensures forall s :: s in r ==> s.pred.group == DISubprogram && s.pred.attr in {IsDefinition, IsLocalToUnit, IsOptimized}
  {
    PutIf(sp.isDefinition, Pred(DISubprogram, IsDefinition), [n])
    + PutIf(sp.isLocalToUnit, Pred(DISubprogram, IsLocalToUnit), [n])
    + PutIf(sp.isOptimized, Pred(DISubprogram, IsOptimized), [n])
  }

  function SubprogramRefSteps(sp: SubprogramInfo, n: string): (r: seq<Step>)
    ensures About(r, n)
    ensures forall s :: s in r ==> s.pred.group == DISubprogram && s.pred.attr in {ContainingTypeNode, Declaration}
  {
    Child(TypeR, sp.containingType, Pred(DISubprogram, ContainingTypeNode), n)
    + Child(SubprogramR, sp.declaration, Pred(DISubprogram, Declaration), n)
  }

  function SubprogramTailSteps(h: Llvm.Host, sp: SubprogramInfo, n: string): (r: seq<Step>)
    ensures About(r, n)
    ensures forall s :: s in r ==> s.pred.group == DISubprogram && s.pred.attr in {Virtuality, VirtualIndex, Flag, TemplateParam}
  {
    (if sp.virtuality != 0 then
       [Put(Pred(DISubprogram, Virtuality), [n, h.virtualityString(sp.virtuality)]),
        Put(Pred(DISubprogram, VirtualIndex), [n, NatToString(sp.virtualIndex)])]
     else [])
    + FlagSteps(h, Pred(DISubprogram, Flag), n, sp.flags)
    + Indexed(TemplateParamR, sp.templateParams, 0, Pred(DISubprogram, TemplateParam), n)
  }

  /** The tags whose types carry no size, alignment or offset. */
  predicate Sizeless(tag: nat) {
    tag == TagTypedef || tag == TagConstType || tag == TagRestrictType || tag == TagSubroutineType
  }

  // write_di_type_common: the id, name and line, then the sizes, then the
  // scope and the flags
  function TypeCommonSteps(h: Llvm.Host, ty: TypeInfo, n: string): (r: seq<Step>)
    ensures r != [] && r[0] == Put(Pred(DIType, Id), [n]) && About(r, n)
    ensures forall s :: s in r ==> s.pred.group == DIType
  {
    TypeHeadSteps(ty, n) + TypeSizeSteps(ty, n) + TypeScopeSteps(h, ty, n)
  }
  function TypeHeadSteps(ty: TypeInfo, n: string): (r: seq<Step>)
    ensures r != [] && r[0] == Put(Pred(DIType, Id), [n]) && About(r, n)
    ensures forall s :: s in r ==>
      s.pred.group == DIType && s.pred.attr in {Id, Name, Line}
  {
    [Put(Pred(DIType, Id), [n])]
    + PutIf(ty.name != "", Pred(DIType, Name), [n, ty.name])
    + PutIf(ty.line != 0, Pred(DIType, Line), [n, NatToString(ty.line)])
  }
  function TypeSizeSteps(ty: TypeInfo, n: string): (r: seq<Step>)
    ensures About(r, n)
    ensures forall s :: s in r ==>
      s.pred.group == DIType && s.pred.attr in {BitSize, BitAlign, BitOffset}
  {
    if Sizeless(ty.tag) then []
    else [Put(Pred(DIType, BitSize), [n, NatToString(ty.sizeInBits)]),
          Put(Pred(DIType, BitAlign), [n, NatToString(ty.alignInBits)]),
          Put(Pred(DIType, BitOffset), [n, NatToString(ty.offsetInBits)])]
  }
  function TypeScopeSteps(h: Llvm.Host, ty: TypeInfo, n: string): (r: seq<Step>)
    ensures About(r, n)
    ensures forall s :: s in r ==>
      s.pred.group == DIType && s.pred.attr in {ScopeNode, Flag}
  {
    Child(ScopeR, ty.scope, Pred(DIType, ScopeNode), n)
    + FlagSteps(h, Pred(DIType, Flag), n, ty.flags)
  }

  /** The one kind fact a composite gets for the five tags the switch names. */
  function CompositeKindSteps(tag: nat, n: string): (r: seq<Step>)
    ensures |r| <= 1 && About(r, n)
    ensures forall s :: s in r ==>
      s.Put? && s.pred.group == DICompositeType && s.pred.attr in {Structures, Classes, Arrays, Unions, Enumerations}
  {
    if tag == TagStructureType then [Put(Pred(DICompositeType, Structures), [n])]
    else if tag == TagClassType then [Put(Pred(DICompositeType, Classes), [n])]
    else if tag == TagArrayType then [Put(Pred(DICompositeType, Arrays), [n])]
    else if tag == TagUnionType then [Put(Pred(DICompositeType, Unions), [n])]
    else if tag == TagEnumerationType then [Put(Pred(DICompositeType, Enumerations), [n])]
    else []
  }

  /** Element i of a composite: a type is a field, an enumerator an
      enumerator, a subrange a subrange; any other element is skipped. */
  function ElementStep(d: DiGraph, e: NodeId, i: nat, n: string): seq<Step> {
    if e !in d.nodes then []
    else if IsType(d.nodes[e]) then [PutChild(TypeR, e, Pred(DICompositeType, Field), [n, NatToString(i)])]
    else if d.nodes[e].EnumeratorNode? then [PutChild(EnumeratorR, e, Pred(DICompositeType, Enumerator), [n, NatToString(i)])]
    else if d.nodes[e].SubrangeNode? then [PutChild(SubrangeR, e, Pred(DICompositeType, Subrange), [n, NatToString(i)])]
    else []
  }

  function ElementSteps(d: DiGraph, elems: seq<NodeId>, from: nat, n: string): (r: seq<Step>)
    ensures forall s :: s in r ==>
      s.PutChild? && s.pred.group == DICompositeType && |s.cols| == 2 && s.cols[0] == n
      && s.pred.attr in {Field, Enumerator, Subrange}
      && s.child in d.nodes && Accepts(s.recorder, d.nodes[s.child])
    ensures forall i, s :: 0 <= i < |elems| && s in ElementStep(d, elems[i], from + i, n) ==> s in r
    decreases |elems|
  {
    if elems == [] then [] else ElementStep(d, elems[0], from, n) + ElementSteps(d, elems[1..], from + 1, n)
  }

  // write_di_composite_type: the common type facts, the composite's own
  // facts, its elements, then the nodes it refers to.
  function CompositeSteps(d: DiGraph, h: Llvm.Host, node: DiNode, n: string): (r: seq<Step>)
    requires node.CompositeTypeNode?
    ensures r != [] && r[0] == Put(Pred(DIType, Id), [n]) && About(r, n)
    ensures TypeCommonSteps(h, node.ty, n) <= r
  {
    StartsWith(TypeCommonSteps(h, node.ty, n), CompositeOwnSteps(d, h, node, n));
    TypeCommonSteps(h, node.ty, n) + CompositeOwnSteps(d, h, node, n)
  }
  /** The facts of the composite type's own group. */
  function CompositeOwnSteps(d: DiGraph, h: Llvm.Host, node: DiNode, n: string): (r: seq<Step>)
    requires node.CompositeTypeNode?
    ensures About(r, n) && forall s :: s in r ==> s.pred.group == DICompositeType
  {
    CompositeHeadSteps(h, node, n) + CompositeBodySteps(d, node, n)
  }
  /** The elements and then the references to other nodes. */
  function CompositeBodySteps(d: DiGraph, node: DiNode, n: string): (r: seq<Step>)
    requires node.CompositeTypeNode?
    ensures About(r, n)
    ensures forall s :: s in r ==>
      s.PutChild? && s.pred.group == DICompositeType
      && s.pred.attr in {Field, Enumerator, Subrange, BaseTypeNode, VTableNode, TemplateParam, File}
  {
    ElementSteps(d, node.elements, 0, n) + CompositeRefSteps(node, n)
  }

  function CompositeHeadSteps(h: Llvm.Host, node: DiNode, n: string): (r: seq<Step>)
    requires node.CompositeTypeNode?
    ensures About(r, n)
    ensures forall s :: s in r ==>
      s.Put? && s.pred.group == DICompositeType
      && s.pred.attr in {Id, Structures, Classes, Arrays, Unions, Enumerations, Kind, AbiId}
  {
    [Put(Pred(DICompositeType, Id), [n])]
    + CompositeKindSteps(node.ty.tag, n)
    + [Put(Pred(DICompositeType, Kind), [n, h.tagString(node.ty.tag)]),
       Put(Pred(DICompositeType, AbiId), [n, node.identifier])]
  }

  function CompositeRefSteps(node: DiNode, n: string): (r: seq<Step>)
    requires node.CompositeTypeNode?
    ensures About(r, n)
    ensures forall s :: s in r ==>
      s.PutChild? && s.pred.group == DICompositeType
      && s.pred.attr in {BaseTypeNode, VTableNode, TemplateParam, File}
  {
    Child(TypeR, node.baseType, Pred(DICompositeType, BaseTypeNode), n)
    + Child(TypeR, node.vtableHolder, Pred(DICompositeType, VTableNode), n)
    + Indexed(TemplateParamR, node.templateParams, 0, Pred(DICompositeType, TemplateParam), n)
    + Child(FileR, node.file, Pred(DICompositeType, File), n)
  }

  // write_di_derived_type
  function DerivedSteps(h: Llvm.Host, node: DiNode, n: string): (r: seq<Step>)
    requires node.DerivedTypeNode?
    ensures r != [] && r[0] == Put(Pred(DIType, Id), [n]) && About(r, n)
    ensures TypeCommonSteps(h, node.ty, n) <= r
  {
    StartsWith(TypeCommonSteps(h, node.ty, n), DerivedOwnSteps(h, node, n));
    TypeCommonSteps(h, node.ty, n) + DerivedOwnSteps(h, node, n)
  }
  function DerivedOwnSteps(h: Llvm.Host, node: DiNode, n: string): (r: seq<Step>)
    requires node.DerivedTypeNode?
    ensures About(r, n) && forall s :: s in r ==> s.pred.group == DIDerivedType
  {
    [Put(Pred(DIDerivedType, Id), [n]), Put(Pred(DIDerivedType, Kind), [n, h.tagString(node.ty.tag)])]
    + Child(TypeR, node.baseType, Pred(DIDerivedType, BaseTypeNode), n)
    + Child(FileR, node.file, Pred(DIDerivedType, File), n)
  }

  /** Entry i of a subroutine type's array: null is skipped, a string is a
      raw element, a node is recorded as a type. */
  function ArrayStep(e: ArrayEntry, i: nat, n: string): seq<Step> {
    match e
    case NullEntry => []
    case StringEntry(str) => [Put(Pred(DISubroutineType, RawTypeElem), [n, NatToString(i), str])]
    case NodeEntry(c) => [PutChild(TypeR, c, Pred(DISubroutineType, TypeElem), [n, NatToString(i)])]
  }

  function ArraySteps(arr: seq<ArrayEntry>, from: nat, n: string): (r: seq<Step>)
    ensures |r| <= |arr|
    ensures forall s :: s in r ==>
      s.pred.group == DISubroutineType && |s.cols| >= 2 && s.cols[0] == n
      && (s.Put? || (s.PutChild? && s.recorder == TypeR))
    ensures forall i, s :: 0 <= i < |arr| && s in ArrayStep(arr[i], from + i, n) ==> s in r
    decreases |arr|
  {
    if arr == [] then [] else ArrayStep(arr[0], from, n) + ArraySteps(arr[1..], from + 1, n)
  }

  // write_di_subroutine_type
  function SubroutineSteps(h: Llvm.Host, node: DiNode, n: string): (r: seq<Step>)
    requires node.SubroutineTypeNode?
    ensures r != [] && r[0] == Put(Pred(DIType, Id), [n]) && About(r, n)
    ensures TypeCommonSteps(h, node.ty, n) <= r
  {
    var t, u := TypeCommonSteps(h, node.ty, n), [Put(Pred(DISubroutineType, Id), [n])];
    StartsWith(t, u);
    StartsWith(t + u, ArraySteps(node.typeArray, 0, n));
    t + u + ArraySteps(node.typeArray, 0, n)
  }

  // write_di_basic_type
  function BasicSteps(h: Llvm.Host, node: DiNode, n: string): (r: seq<Step>)
    requires node.BasicTypeNode?
    ensures r != [] && r[0] == Put(Pred(DIType, Id), [n]) && About(r, n)
    ensures TypeCommonSteps(h, node.ty, n) <= r
  {
    StartsWith(TypeCommonSteps(h, node.ty, n), [Put(Pred(DIBasicType, Id), [n])]);
    TypeCommonSteps(h, node.ty, n) + [Put(Pred(DIBasicType, Id), [n])]
  }

  /** write_di_type: the writer of the type's class; nothing for a class
      it does not handle. */
  function TypeSteps(d: DiGraph, h: Llvm.Host, node: DiNode, n: string): seq<Step> {
    match node
    case BasicTypeNode(_) => BasicSteps(h, node, n)
    case CompositeTypeNode(_, _, _, _, _, _, _) => CompositeSteps(d, h, node, n)
    case DerivedTypeNode(_, _, _) => DerivedSteps(h, node, n)
    case SubroutineTypeNode(_, _) => SubroutineSteps(h, node, n)
    case _ => []
  }

  /** write_di_scope: namespace, file, type, subprogram, lexical block,
      lexical-block file; nothing for any other scope. */
  function ScopeSteps(d: DiGraph, h: Llvm.Host, node: DiNode, n: string): seq<Step> {
    if node.NamespaceNode? then NamespaceSteps(node, n)
    else if node.FileNode? then FileSteps(node, n)
    else if IsType(node) then TypeSteps(d, h, node, n)
    else if node.SubprogramNode? then SubprogramSteps(h, node.sp, n)
    else if node.LexBlockNode? then LexBlockSteps(node, n)
    else if node.LexBlockFileNode? then LexBlockFileSteps(node, n)
    else []
  }

  /** Operand i of a tuple value: recorded and named when it is a template
      parameter, skipped (only reported) otherwise. */
  function TupleStep(d: DiGraph, item: Option<NodeId>, i: nat, n: string): seq<Step> {
    if item.Some? && item.value in d.nodes && d.nodes[item.value].TemplateParamNode?
    then [PutChild(TemplateParamR, item.value, Pred(DITemplateValueParam, Elements), [n, NatToString(i)])]
    else []
  }

  function TupleSteps(d: DiGraph, items: seq<Option<NodeId>>, from: nat, n: string): (r: seq<Step>)
    ensures forall s :: s in r ==>
      s.PutChild? && s.recorder == TemplateParamR
      && s.pred == Pred(DITemplateValueParam, Elements) && |s.cols| == 2 && s.cols[0] == n
      && s.child in d.nodes && d.nodes[s.child].TemplateParamNode?
    ensures forall i, s :: 0 <= i < |items| && s in TupleStep(d, items[i], from + i, n) ==> s in r
    decreases |items|
  {
    if items == [] then [] else TupleStep(d, items[0], from, n) + TupleSteps(d, items[1..], from + 1, n)
  }

  // write_di_tpl_value_param
  function ValueParamSteps(d: DiGraph, v: TplValue, n: string): (r: seq<Step>)
    ensures r != [] && r[0] == Put(Pred(DITemplateValueParam, Id), [n]) && About(r, n)
    ensures forall s :: s in r ==> s.pred.group == DITemplateValueParam
  {
    [Put(Pred(DITemplateValueParam, Id), [n])]
    + (match v
       case TupleValue(items) => TupleSteps(d, items, 0, n)
       case ConstantValue(c) =>
         if c.Some? then [PutConstant(c.value, Pred(DITemplateValueParam, Value), [n])] else []
       case _ => [])
  }

  // write_di_tpl_param
  function TemplateParamSteps(d: DiGraph, node: DiNode, n: string): (r: seq<Step>)
    requires node.TemplateParamNode?
    ensures r != [] && r[0] == Put(Pred(DITemplateParam, Id), [n]) && About(r, n)
  {
    [Put(Pred(DITemplateParam, Id), [n])]
    + PutIf(node.name != "", Pred(DITemplateParam, Name), [n, node.name])
    + Child(TypeR, node.typ, Pred(DITemplateParam, TypeNode), n)
    + (match node.tplKind
       case TypeParam => [Put(Pred(DITemplateTypeParam, Id), [n])]
       case ValueParam(v) => ValueParamSteps(d, v, n))
  }

  // write_di_global_variable (LLVM 4 and later: no variable fact)
  function GlobalVarSteps(k: VarKind, n: string): (r: seq<Step>)
    requires k.GlobalVar?
    ensures r != [] && r[0] == Put(Pred(DIGlobalVar, Id), [n]) && About(r, n)
    ensures forall s :: s in r ==> s.pred.group == DIGlobalVar
  {
    [Put(Pred(DIGlobalVar, Id), [n])]
    + PutIf(k.linkageName != "", Pred(DIGlobalVar, LinkageName), [n, k.linkageName])
    + PutIf(k.isDefinition, Pred(DIGlobalVar, IsDefinition), [n])
    + PutIf(k.isLocalToUnit, Pred(DIGlobalVar, IsLocalToUnit), [n])
    + Child(TypeR, k.staticMemberDecl, Pred(DIGlobalVar, StaticDataMemberDecl), n)
  }

  // write_di_local_variable
  function LocalVarSteps(k: VarKind, n: string): (r: seq<Step>)
    requires k.LocalVar?
    ensures r != [] && r[0] == Put(Pred(DILocalVar, Id), [n]) && About(r, n)
    ensures forall s :: s in r ==> s.pred.group == DILocalVar
  {
    [Put(Pred(DILocalVar, Id), [n])]
    + PutIf(k.arg != 0, Pred(DILocalVar, ArgNum), [n, NatToString(k.arg)])
    + PutIf(k.isArtificial, Pred(DILocalVar, Flag), [n, "artificial"])
    + PutIf(k.isObjectPointer, Pred(DILocalVar, Flag), [n, "objectpointer"])
  }

  // write_di_variable: the facts every variable has, then those of its kind.
  function VariableSteps(node: DiNode, n: string): (r: seq<Step>)
    requires node.VariableNode?
    ensures r != [] && r[0] == Put(Pred(DIVariable, Id), [n]) && About(r, n)
  {
    VariableHeadSteps(node.v, n)
    + (if node.varKind.GlobalVar? then GlobalVarSteps(node.varKind, n) else LocalVarSteps(node.varKind, n))
  }

  function VariableHeadSteps(v: VarInfo, n: string): (r: seq<Step>)
    ensures r != [] && r[0] == Put(Pred(DIVariable, Id), [n]) && About(r, n)
    ensures forall s :: s in r ==> s.pred.group == DIVariable
  {
    [Put(Pred(DIVariable, Id), [n])]
    + PutIf(v.name != "", Pred(DIVariable, Name), [n, v.name])
    + Child(TypeR, v.typ, Pred(DIVariable, TypeNode), n)
    + Child(ScopeR, v.scope, Pred(DIVariable, Scope), n)
    + PutIf(v.line != 0, Pred(DIVariable, Line), [n, NatToString(v.line)])
    + Child(FileR, v.file, Pred(DIVariable, File), n)
  }

  // write_di_enumerator
  function EnumeratorSteps(node: DiNode, n: string): (r: seq<Step>)
    requires node.EnumeratorNode?
    ensures r != [] && r[0] == Put(Pred(DIEnumerator, Id), [n]) && About(r, n)
  {
    [Put(Pred(DIEnumerator, Id), [n]),
     Put(Pred(DIEnumerator, Name), [n, node.name]),
     Put(Pred(DIEnumerator, Value), [n, IntToString(node.value)])]
  }

  /** The count a subrange reports: its constant, or 0 when the count is
      not a constant integer. */
  function CountOf(node: DiNode): int
    requires node.SubrangeNode?
  {
    if node.count.Some? then node.count.value else 0
  }

  // write_di_subrange (LLVM 7 and later for the count)
  function SubrangeSteps(llvmMajor: nat, node: DiNode, n: string): (r: seq<Step>)
    requires node.SubrangeNode?
    ensures r != [] && r[0] == Put(Pred(DISubrange, Id), [n]) && About(r, n)
  {
    [Put(Pred(DISubrange, Id), [n])]
    + PutIf(llvmMajor < 13 && node.lowerBound != 0, Pred(DISubrange, LowerBound), [n, IntToString(node.lowerBound)])
    + [Put(Pred(DISubrange, Count), [n, IntToString(CountOf(node))])]
  }

  // write_di_imported_entity
  function ImportedEntitySteps(d: DiGraph, node: DiNode, n: string): (r: seq<Step>)
    requires node.ImportedEntityNode?
    ensures r != [] && r[0] == Put(Pred(DIImportedEntity, Id), [n]) && About(r, n)
  {
    [Put(Pred(DIImportedEntity, Id), [n]),
     Put(Pred(DIImportedEntity, Name), [n, node.name]),
     Put(Pred(DIImportedEntity, Line), [n, NatToString(node.line)])]
    + Child(ScopeR, node.scope, Pred(DIImportedEntity, Scope), n)
    + (match node.entity
       case StringEntity(s) => [Put(Pred(DIImportedEntity, EntityRaw), [n, s])]
       case NodeEntity(e) =>
         if e in d.nodes && IsScope(d.nodes[e]) then [PutChild(ScopeR, e, Pred(DIImportedEntity, EntityNode), [n])]
         else [])
  }

  // write_di_location
  function LocationSteps(node: DiNode, n: string): (r: seq<Step>)
    requires node.LocationNode?
    ensures r != [] && r[0] == Put(Pred(DILocation, Id), [n]) && About(r, n)
  {
    [Put(Pred(DILocation, Id), [n]),
     Put(Pred(DILocation, Line), [n, NatToString(node.line)]),
     Put(Pred(DILocation, Column), [n, NatToString(node.column)])]
    + Child(ScopeR, node.scope, Pred(DILocation, Scope), n)
    + Child(LocationR, node.inlinedAt, Pred(DILocation, InlinedAt), n)
  }

  /** Whether a recorder's writer takes nodes of this class. */
  predicate Accepts(k: Recorder, node: DiNode) {
    match k
    case FileR => node.FileNode?
    case NamespaceR => node.NamespaceNode?
    case ScopeR => IsScope(node)
    case TypeR => IsType(node)
    case SubprogramR => node.SubprogramNode?
    case TemplateParamR => node.TemplateParamNode?
    case VariableR => node.VariableNode?
    case EnumeratorR => node.EnumeratorNode?
    case SubrangeR => node.SubrangeNode?
    case ImportedEntityR => node.ImportedEntityNode?
    case LocationR => node.LocationNode?
  }

  /** What a recorder's writer emits for a node of its class; LLVM's class
      hierarchy keeps nodes of other classes away, and for them the model
      writes nothing. */
  function Writer(d: DiGraph, h: Llvm.Host, k: Recorder, node: DiNode, n: string): seq<Step> {
    if !Accepts(k, node) then []
    else match k
      case FileR => FileSteps(node, n)
      case NamespaceR => NamespaceSteps(node, n)
      case ScopeR => ScopeSteps(d, h, node, n)
      case TypeR => TypeSteps(d, h, node, n)
      case SubprogramR => SubprogramSteps(h, node.sp, n)
      case TemplateParamR => TemplateParamSteps(d, node, n)
      case VariableR => VariableSteps(node, n)
      case EnumeratorR => EnumeratorSteps(node, n)
      case SubrangeR => SubrangeSteps(d.llvmMajor, node, n)
      case ImportedEntityR => ImportedEntitySteps(d, node, n)
      case LocationR => LocationSteps(node, n)
  }

  /** The template a recorder runs for a node id; nothing for an id that is
      not a node of the graph. */
  function Template(d: DiGraph, h: Llvm.Host, k: Recorder, id: NodeId, n: string): seq<Step> {
    if id in d.nodes then Writer(d, h, k, d.nodes[id], n) else []
  }

  // ---------------------------------------------------------------------
  // Properties of the writers
  // ---------------------------------------------------------------------

  /** The group of the first fact written for a node; none for the nodes
      no writer handles. */
  function FirstGroup(node: DiNode): Option<Group> {
    match node
    case FileNode(_, _) => Some(DIFile)
    case NamespaceNode(_, _, _) => Some(DINamespace)
    case LexBlockNode(_, _, _, _) => Some(DILexBlock)
    case LexBlockFileNode(_, _, _) => Some(DILexBlockFile)
    case SubprogramNode(_) => Some(DISubprogram)
    case BasicTypeNode(_) => Some(DIType)
    case CompositeTypeNode(_, _, _, _, _, _, _) => Some(DIType)
    case DerivedTypeNode(_, _, _) => Some(DIType)
    case SubroutineTypeNode(_, _) => Some(DIType)
    case TemplateParamNode(_, _, _) => Some(DITemplateParam)
    case VariableNode(_, _) => Some(DIVariable)
    case EnumeratorNode(_, _) => Some(DIEnumerator)
    case SubrangeNode(_, _) => Some(DISubrange)
    case ImportedEntityNode(_, _, _, _) => Some(DIImportedEntity)
    case LocationNode(_, _, _, _) => Some(DILocation)
    case _ => None
  }

  /** A writer writes something exactly when its recorder takes the node
      and the node is of a class some writer handles; then its first fact
      is the node's id fact, and every fact it writes is about the node. */
  lemma WriterShape(d: DiGraph, h: Llvm.Host, k: Recorder, node: DiNode, n: string)
    ensures var w := Writer(d, h, k, node, n);
      && (w != [] <==> Accepts(k, node) && FirstGroup(node).Some?)
      && (w != [] ==> w[0] == Put(Pred(FirstGroup(node).value, Id), [n]))
      && About(w, n)
  {
    if k == FileR || k == NamespaceR {
      WriterShapeFiles(d, h, k, node, n);
    } else if k == ScopeR || k == TypeR {
      WriterShapeScopes(d, h, k, node, n);
    } else if k == SubprogramR || k == TemplateParamR || k == EnumeratorR {
      WriterShapeSubprograms(d, h, k, node, n);
    } else if k == VariableR {
      WriterShapeVariable(d, h, k, node, n);
    } else {
      WriterShapeOthers(d, h, k, node, n);
    }
  }
  lemma WriterShapeFiles(d: DiGraph, h: Llvm.Host, k: Recorder, node: DiNode, n: string)
    requires k == FileR || k == NamespaceR
    ensures var w := Writer(d, h, k, node, n);
      && (w != [] <==> Accepts(k, node) && FirstGroup(node).Some?)
      && (w != [] ==> w[0] == Put(Pred(FirstGroup(node).value, Id), [n]))
      && About(w, n)
  {
  }
  lemma WriterShapeScopes(d: DiGraph, h: Llvm.Host, k: Recorder, node: DiNode, n: string)
    requires k == ScopeR || k == TypeR
    ensures var w := Writer(d, h, k, node, n);
      && (w != [] <==> Accepts(k, node) && FirstGroup(node).Some?)
      && (w != [] ==> w[0] == Put(Pred(FirstGroup(node).value, Id), [n]))
      && About(w, n)
  {
    if IsScope(node) {
      ScopeShape(d, h, node, n);
    }
    if IsType(node) {
      TypeShape(d, h, node, n);
    }
  }
  lemma ScopeShape(d: DiGraph, h: Llvm.Host, node: DiNode, n: string)
    requires IsScope(node)
    ensures var w := ScopeSteps(d, h, node, n);
      && (w != [] <==> FirstGroup(node).Some?)
      && (w != [] ==> w[0] == Put(Pred(FirstGroup(node).value, Id), [n]))
      && About(w, n)
  {
    if IsType(node) {
      TypeShape(d, h, node, n);
    }
  }
  lemma TypeShape(d: DiGraph, h: Llvm.Host, node: DiNode, n: string)
    requires IsType(node)
    ensures var w := TypeSteps(d, h, node, n);
      && (w != [] <==> FirstGroup(node).Some?)
      && (w != [] ==> w[0] == Put(Pred(DIType, Id), [n]))
      && About(w, n)
  {
    if node.BasicTypeNode? {
    } else if node.CompositeTypeNode? {
    } else if node.DerivedTypeNode? {
    } else if node.SubroutineTypeNode? {
    }
  }
  lemma WriterShapeSubprograms(d: DiGraph, h: Llvm.Host, k: Recorder, node: DiNode, n: string)
    requires k == SubprogramR || k == TemplateParamR || k == EnumeratorR
    ensures var w := Writer(d, h, k, node, n);
      && (w != [] <==> Accepts(k, node) && FirstGroup(node).Some?)
      && (w != [] ==> w[0] == Put(Pred(FirstGroup(node).value, Id), [n]))
      && About(w, n)
  {
  }
  lemma WriterShapeVariable(d: DiGraph, h: Llvm.Host, k: Recorder, node: DiNode, n: string)
    requires k == VariableR
    ensures var w := Writer(d, h, k, node, n);
      && (w != [] <==> Accepts(k, node) && FirstGroup(node).Some?)
      && (w != [] ==> w[0] == Put(Pred(FirstGroup(node).value, Id), [n]))
      && About(w, n)
  {
    if node.VariableNode? {
      assert Writer(d, h, k, node, n) == VariableSteps(node, n);
    }
  }
  lemma WriterShapeOthers(d: DiGraph, h: Llvm.Host, k: Recorder, node: DiNode, n: string)
    requires k == SubrangeR || k == ImportedEntityR || k == LocationR
    ensures var w := Writer(d, h, k, node, n);
      && (w != [] <==> Accepts(k, node) && FirstGroup(node).Some?)
      && (w != [] ==> w[0] == Put(Pred(FirstGroup(node).value, Id), [n]))
      && About(w, n)
  {
  }

  /** The recorders share one cache, so which of them first meets a node
      must not matter: any two that take a node write the same for it. */
  lemma RecordersAgree(d: DiGraph, h: Llvm.Host, k1: Recorder, k2: Recorder, node: DiNode, n: string)
    requires Accepts(k1, node) && Accepts(k2, node)
    ensures Writer(d, h, k1, node, n) == Writer(d, h, k2, node, n)
  {
    if k1 != k2 {
      assert IsScope(node);
      ScopeAgrees(d, h, k1, node, n);
      ScopeAgrees(d, h, k2, node, n);
    }
  }

  lemma ScopeAgrees(d: DiGraph, h: Llvm.Host, k: Recorder, node: DiNode, n: string)
    requires Accepts(k, node) && IsScope(node)
    ensures Writer(d, h, k, node, n) == Writer(d, h, ScopeR, node, n)
  {
    if k != ScopeR {
      ScopeWriter(d, h, node, n);
      ScopeCases(d, h, node, n);
      if k == TypeR {
        assert Writer(d, h, k, node, n) == TypeSteps(d, h, node, n);
      } else {
        OwnWriter(d, h, k, node, n);
      }
    }
  }

  /** The scope recorder writes a node as the writer of its class does. */
  lemma ScopeWriter(d: DiGraph, h: Llvm.Host, node: DiNode, n: string)
    requires IsScope(node)
    ensures Writer(d, h, ScopeR, node, n) == ScopeSteps(d, h, node, n)
  {
    assert Accepts(ScopeR, node);
  }

  /** The scope writer hands each class of scope to that class's writer. */
  lemma ScopeCases(d: DiGraph, h: Llvm.Host, node: DiNode, n: string)
    ensures IsType(node) ==> ScopeSteps(d, h, node, n) == TypeSteps(d, h, node, n)
    ensures node.FileNode? ==> ScopeSteps(d, h, node, n) == FileSteps(node, n)
    ensures node.NamespaceNode? ==> ScopeSteps(d, h, node, n) == NamespaceSteps(node, n)
    ensures node.SubprogramNode? ==> ScopeSteps(d, h, node, n) == SubprogramSteps(h, node.sp, n)
  {
  }

  /** The file, namespace and subprogram recorders write a node of their
      own class with that class's writer. */
  lemma OwnWriter(d: DiGraph, h: Llvm.Host, k: Recorder, node: DiNode, n: string)
    requires Accepts(k, node) && (k == FileR || k == NamespaceR || k == SubprogramR)
    ensures k == FileR ==> Writer(d, h, k, node, n) == FileSteps(node, n)
    ensures k == NamespaceR ==> Writer(d, h, k, node, n) == NamespaceSteps(node, n)
    ensures k == SubprogramR ==> Writer(d, h, k, node, n) == SubprogramSteps(h, node.sp, n)
  {
  }


  /** recordFlags writes one fact per flag name of a non-zero word. */
  lemma FlagsWritten(h: Llvm.Host, p: Pred, n: string, flags: nat, x: string)
    ensures Put(p, [n, x]) in FlagSteps(h, p, n, flags) <==> flags != 0 && x in h.flagNames(flags)
  {
    if flags != 0 {
      var names := h.flagNames(flags);
      if x in names {
        var i :| 0 <= i < |names| && names[i] == x;
        assert Named(p, n, names)[i] == Put(p, [n, x]);
      }
    }
  }

  /** A namespace names its file and enclosing scope exactly when it has them. */
  lemma NamespaceRefs(node: DiNode, n: string, c: NodeId)
    requires node.NamespaceNode?
    ensures PutChild(FileR, c, Pred(DINamespace, File), [n]) in NamespaceSteps(node, n) <==> node.file == Some(c)
    ensures PutChild(ScopeR, c, Pred(DINamespace, Scope), [n]) in NamespaceSteps(node, n) <==> node.scope == Some(c)
  {
  }

  /** A lexical block names its file and scope exactly when it has them. */
  lemma LexBlockRefs(node: DiNode, n: string, c: NodeId)
    requires node.LexBlockNode?
    ensures PutChild(FileR, c, Pred(DILexBlock, File), [n]) in LexBlockSteps(node, n) <==> node.file == Some(c)
    ensures PutChild(ScopeR, c, Pred(DILexBlock, Scope), [n]) in LexBlockSteps(node, n) <==> node.scope == Some(c)
  {
  }

  /** A lexical-block file names its file and scope exactly when it has them. */
  lemma LexBlockFileRefs(node: DiNode, n: string, c: NodeId)
    requires node.LexBlockFileNode?
    ensures PutChild(FileR, c, Pred(DILexBlockFile, File), [n]) in LexBlockFileSteps(node, n) <==> node.file == Some(c)
    ensures PutChild(ScopeR, c, Pred(DILexBlockFile, Scope), [n]) in LexBlockFileSteps(node, n) <==> node.scope == Some(c)
  {
  }

  /** A step in one section of a template and in none of the others is in
      the template exactly when it is in that section. */
  lemma InSection(x: Step, pre: seq<Step>, mid: seq<Step>, post: seq<Step>)
    requires x !in pre && x !in post
    ensures x in pre + mid + post <==> x in mid
  {
  }

  /** A step is in the subprogram writer's output exactly when it is in the
      section that writes its attribute. */
  lemma ScopeOwns(h: Llvm.Host, sp: SubprogramInfo, n: string, x: Step)
    requires x.pred.attr in {Id, Name, File, ScopeNode}
    ensures x in SubprogramSteps(h, sp, n) <==> x in SubprogramScopeSteps(sp, n)
  {
    var s, t, f, r, l := SubprogramScopeSteps(sp, n), SubprogramTypeSteps(sp, n), SubprogramFlagSteps(sp, n), SubprogramRefSteps(sp, n), SubprogramTailSteps(h, sp, n);
    assert x !in t && x !in f && x !in r && x !in l;
  }
  lemma TypeOwns(h: Llvm.Host, sp: SubprogramInfo, n: string, x: Step)
    requires x.pred.attr in {LinkageName, Type, Line, ScopeLine}
    ensures x in SubprogramSteps(h, sp, n) <==> x in SubprogramTypeSteps(sp, n)
  {
    var s, t, f, r, l := SubprogramScopeSteps(sp, n), SubprogramTypeSteps(sp, n), SubprogramFlagSteps(sp, n), SubprogramRefSteps(sp, n), SubprogramTailSteps(h, sp, n);
    assert x !in s && x !in f && x !in r && x !in l;
  }
  lemma FlagOwns(h: Llvm.Host, sp: SubprogramInfo, n: string, x: Step)
    requires x.pred.attr in {IsDefinition, IsLocalToUnit, IsOptimized}
    ensures x in SubprogramSteps(h, sp, n) <==> x in SubprogramFlagSteps(sp, n)
  {
    var s, t, f, r, l := SubprogramScopeSteps(sp, n), SubprogramTypeSteps(sp, n), SubprogramFlagSteps(sp, n), SubprogramRefSteps(sp, n), SubprogramTailSteps(h, sp, n);
    assert x !in s && x !in t && x !in r && x !in l;
  }
  lemma RefOwns(h: Llvm.Host, sp: SubprogramInfo, n: string, x: Step)
    requires x.pred.attr in {ContainingTypeNode, Declaration}
    ensures x in SubprogramSteps(h, sp, n) <==> x in SubprogramRefSteps(sp, n)
  {
    var s, t, f, r, l := SubprogramScopeSteps(sp, n), SubprogramTypeSteps(sp, n), SubprogramFlagSteps(sp, n), SubprogramRefSteps(sp, n), SubprogramTailSteps(h, sp, n);
    assert x !in s && x !in t && x !in f && x !in l;
  }
  lemma TailOwns(h: Llvm.Host, sp: SubprogramInfo, n: string, x: Step)
    requires x.pred.attr in {Virtuality, VirtualIndex, TemplateParam}
    ensures x in SubprogramSteps(h, sp, n) <==> x in SubprogramTailSteps(h, sp, n)
  {
    var s, t, f, r, l := SubprogramScopeSteps(sp, n), SubprogramTypeSteps(sp, n), SubprogramFlagSteps(sp, n), SubprogramRefSteps(sp, n), SubprogramTailSteps(h, sp, n);
    assert x !in s && x !in t && x !in f && x !in r;
  }

  // Each fact of a subprogram lies in the one section that owns its
  // member, so a property of a section is a property of the writer.

  /** The generic scope section: the name is written exactly when not
      empty, the file and scope exactly when present. */
  lemma SubprogramScope(h: Llvm.Host, sp: SubprogramInfo, n: string, c: NodeId)
    ensures Put(Pred(DISubprogram, Name), [n, sp.name]) in SubprogramSteps(h, sp, n) <==> sp.name != ""
    ensures PutChild(FileR, c, Pred(DISubprogram, File), [n]) in SubprogramSteps(h, sp, n) <==> sp.file == Some(c)
    ensures PutChild(ScopeR, c, Pred(DISubprogram, ScopeNode), [n]) in SubprogramSteps(h, sp, n) <==> sp.scope == Some(c)
  {
    ScopeOwns(h, sp, n, Put(Pred(DISubprogram, Name), [n, sp.name]));
    ScopeOwns(h, sp, n, PutChild(FileR, c, Pred(DISubprogram, File), [n]));
    ScopeOwns(h, sp, n, PutChild(ScopeR, c, Pred(DISubprogram, ScopeNode), [n]));
    ScopeSectionFacts(sp, n, c);
  }

  lemma ScopeSectionFacts(sp: SubprogramInfo, n: string, c: NodeId)
    ensures Put(Pred(DISubprogram, Name), [n, sp.name]) in SubprogramScopeSteps(sp, n) <==> sp.name != ""
    ensures PutChild(FileR, c, Pred(DISubprogram, File), [n]) in SubprogramScopeSteps(sp, n) <==> sp.file == Some(c)
    ensures PutChild(ScopeR, c, Pred(DISubprogram, ScopeNode), [n]) in SubprogramScopeSteps(sp, n) <==> sp.scope == Some(c)
  {
  }

  /** The linkage name is written exactly when not empty, the type exactly
      when present, the line and scope line always. */
  lemma SubprogramType(h: Llvm.Host, sp: SubprogramInfo, n: string, c: NodeId)
    ensures Put(Pred(DISubprogram, LinkageName), [n, sp.linkageName]) in SubprogramSteps(h, sp, n)
      <==> sp.linkageName != ""
    ensures PutChild(TypeR, c, Pred(DISubprogram, Type), [n]) in SubprogramSteps(h, sp, n) <==> sp.typ == Some(c)
    ensures Put(Pred(DISubprogram, Line), [n, NatToString(sp.line)]) in SubprogramSteps(h, sp, n)
    ensures Put(Pred(DISubprogram, ScopeLine), [n, NatToString(sp.scopeLine)]) in SubprogramSteps(h, sp, n)
  {
    TypeOwns(h, sp, n, Put(Pred(DISubprogram, LinkageName), [n, sp.linkageName]));
    TypeOwns(h, sp, n, PutChild(TypeR, c, Pred(DISubprogram, Type), [n]));
    TypeOwns(h, sp, n, Put(Pred(DISubprogram, Line), [n, NatToString(sp.line)]));
    TypeOwns(h, sp, n, Put(Pred(DISubprogram, ScopeLine), [n, NatToString(sp.scopeLine)]));
    TypeSectionFacts(sp, n, c);
  }

  lemma TypeSectionFacts(sp: SubprogramInfo, n: string, c: NodeId)
    ensures Put(Pred(DISubprogram, LinkageName), [n, sp.linkageName]) in SubprogramTypeSteps(sp, n)
      <==> sp.linkageName != ""
    ensures PutChild(TypeR, c, Pred(DISubprogram, Type), [n]) in SubprogramTypeSteps(sp, n) <==> sp.typ == Some(c)
    ensures Put(Pred(DISubprogram, Line), [n, NatToString(sp.line)]) in SubprogramTypeSteps(sp, n)
    ensures Put(Pred(DISubprogram, ScopeLine), [n, NatToString(sp.scopeLine)]) in SubprogramTypeSteps(sp, n)
  {
  }

  /** A subprogram's definition, local-to-unit and optimized facts are
      written exactly when the flag is set. */
  lemma SubprogramFlags(h: Llvm.Host, sp: SubprogramInfo, n: string)
    ensures Put(Pred(DISubprogram, IsDefinition), [n]) in SubprogramSteps(h, sp, n) <==> sp.isDefinition
    ensures Put(Pred(DISubprogram, IsLocalToUnit), [n]) in SubprogramSteps(h, sp, n) <==> sp.isLocalToUnit
    ensures Put(Pred(DISubprogram, IsOptimized), [n]) in SubprogramSteps(h, sp, n) <==> sp.isOptimized
  {
    FlagOwns(h, sp, n, Put(Pred(DISubprogram, IsDefinition), [n]));
    FlagOwns(h, sp, n, Put(Pred(DISubprogram, IsLocalToUnit), [n]));
    FlagOwns(h, sp, n, Put(Pred(DISubprogram, IsOptimized), [n]));
    FlagSectionFacts(sp, n);
  }

  lemma FlagSectionFacts(sp: SubprogramInfo, n: string)
    ensures Put(Pred(DISubprogram, IsDefinition), [n]) in SubprogramFlagSteps(sp, n) <==> sp.isDefinition
    ensures Put(Pred(DISubprogram, IsLocalToUnit), [n]) in SubprogramFlagSteps(sp, n) <==> sp.isLocalToUnit
    ensures Put(Pred(DISubprogram, IsOptimized), [n]) in SubprogramFlagSteps(sp, n) <==> sp.isOptimized
  {
  }

  /** A subprogram names its containing type and its declaration exactly
      when it has them. */
  lemma SubprogramRefs(h: Llvm.Host, sp: SubprogramInfo, n: string, c: NodeId)
    ensures PutChild(TypeR, c, Pred(DISubprogram, ContainingTypeNode), [n]) in SubprogramSteps(h, sp, n)
      <==> sp.containingType == Some(c)
    ensures PutChild(SubprogramR, c, Pred(DISubprogram, Declaration), [n]) in SubprogramSteps(h, sp, n)
      <==> sp.declaration == Some(c)
  {
    RefOwns(h, sp, n, PutChild(TypeR, c, Pred(DISubprogram, ContainingTypeNode), [n]));
    RefOwns(h, sp, n, PutChild(SubprogramR, c, Pred(DISubprogram, Declaration), [n]));
    RefSectionFacts(sp, n, c);
  }

  lemma RefSectionFacts(sp: SubprogramInfo, n: string, c: NodeId)
    ensures PutChild(TypeR, c, Pred(DISubprogram, ContainingTypeNode), [n]) in SubprogramRefSteps(sp, n)
      <==> sp.containingType == Some(c)
    ensures PutChild(SubprogramR, c, Pred(DISubprogram, Declaration), [n]) in SubprogramRefSteps(sp, n)
      <==> sp.declaration == Some(c)
  {
  }

  /** The last section: the virtuality and virtual index are written
      exactly when the subprogram is virtual, and the template parameters
      are named with their positions, no other template-parameter fact
      being written. */
  lemma SubprogramTail(h: Llvm.Host, sp: SubprogramInfo, n: string, s0: Step)
    ensures Put(Pred(DISubprogram, Virtuality), [n, h.virtualityString(sp.virtuality)]) in SubprogramSteps(h, sp, n)
      <==> sp.virtuality != 0
    ensures Put(Pred(DISubprogram, VirtualIndex), [n, NatToString(sp.virtualIndex)]) in SubprogramSteps(h, sp, n)
      <==> sp.virtuality != 0
    ensures s0.pred == Pred(DISubprogram, TemplateParam) ==>
      (s0 in SubprogramSteps(h, sp, n) <==>
        exists i :: 0 <= i < |sp.templateParams|
          && s0 == PutChild(TemplateParamR, sp.templateParams[i], s0.pred, [n, NatToString(i)]))
  {
    TailOwns(h, sp, n, Put(Pred(DISubprogram, Virtuality), [n, h.virtualityString(sp.virtuality)]));
    TailOwns(h, sp, n, Put(Pred(DISubprogram, VirtualIndex), [n, NatToString(sp.virtualIndex)]));
    if s0.pred == Pred(DISubprogram, TemplateParam) {
      TailOwns(h, sp, n, s0);
    }
    VirtualSectionFacts(h, sp, n);
    TailSectionFacts(h, sp, n, s0);
  }

  lemma VirtualSectionFacts(h: Llvm.Host, sp: SubprogramInfo, n: string)
    ensures Put(Pred(DISubprogram, Virtuality), [n, h.virtualityString(sp.virtuality)]) in SubprogramTailSteps(h, sp, n)
      <==> sp.virtuality != 0
    ensures Put(Pred(DISubprogram, VirtualIndex), [n, NatToString(sp.virtualIndex)]) in SubprogramTailSteps(h, sp, n)
      <==> sp.virtuality != 0
  {
  }

  lemma TailSectionFacts(h: Llvm.Host, sp: SubprogramInfo, n: string, s: Step)
    ensures s.pred == Pred(DISubprogram, TemplateParam) ==>
      (s in SubprogramTailSteps(h, sp, n) <==>
        exists i :: 0 <= i < |sp.templateParams|
          && s == PutChild(TemplateParamR, sp.templateParams[i], s.pred, [n, NatToString(i)]))
  {
    var ix := Indexed(TemplateParamR, sp.templateParams, 0, Pred(DISubprogram, TemplateParam), n);
    if s in ix {
      var i :| 0 <= i < |ix| && ix[i] == s;
      assert s == PutChild(TemplateParamR, sp.templateParams[i], s.pred, [n, NatToString(i)]);
    }
  }

  /** The common type facts: the name and line are written exactly when
      present, the three sizes exactly when the tag is not a sizeless one,
      and the scope is named exactly when the type has one. */
  lemma TypeCommonNamed(h: Llvm.Host, ty: TypeInfo, n: string)
    ensures Put(Pred(DIType, Name), [n, ty.name]) in TypeCommonSteps(h, ty, n) <==> ty.name != ""
    ensures Put(Pred(DIType, Line), [n, NatToString(ty.line)]) in TypeCommonSteps(h, ty, n) <==> ty.line != 0
  {
    var hd, sz, sc := TypeHeadSteps(ty, n), TypeSizeSteps(ty, n), TypeScopeSteps(h, ty, n);
    InHead(Put(Pred(DIType, Name), [n, ty.name]), hd + sz, sc);
    InHead(Put(Pred(DIType, Name), [n, ty.name]), hd, sz);
    InHead(Put(Pred(DIType, Line), [n, NatToString(ty.line)]), hd + sz, sc);
    InHead(Put(Pred(DIType, Line), [n, NatToString(ty.line)]), hd, sz);
    TypeHeadFacts(ty, n);
  }
  lemma TypeCommonSizes(h: Llvm.Host, ty: TypeInfo, n: string)
    ensures Put(Pred(DIType, BitSize), [n, NatToString(ty.sizeInBits)]) in TypeCommonSteps(h, ty, n)
      <==> !Sizeless(ty.tag)
    ensures Put(Pred(DIType, BitAlign), [n, NatToString(ty.alignInBits)]) in TypeCommonSteps(h, ty, n)
      <==> !Sizeless(ty.tag)
    ensures Put(Pred(DIType, BitOffset), [n, NatToString(ty.offsetInBits)]) in TypeCommonSteps(h, ty, n)
      <==> !Sizeless(ty.tag)
  {
    var hd, sz, sc := TypeHeadSteps(ty, n), TypeSizeSteps(ty, n), TypeScopeSteps(h, ty, n);
    InSection(Put(Pred(DIType, BitSize), [n, NatToString(ty.sizeInBits)]), hd, sz, sc);
    InSection(Put(Pred(DIType, BitAlign), [n, NatToString(ty.alignInBits)]), hd, sz, sc);
    InSection(Put(Pred(DIType, BitOffset), [n, NatToString(ty.offsetInBits)]), hd, sz, sc);
  }
  lemma TypeCommonScope(h: Llvm.Host, ty: TypeInfo, n: string, c: NodeId)
    ensures PutChild(ScopeR, c, Pred(DIType, ScopeNode), [n]) in TypeCommonSteps(h, ty, n) <==> ty.scope == Some(c)
  {
    var hd, sz, sc := TypeHeadSteps(ty, n), TypeSizeSteps(ty, n), TypeScopeSteps(h, ty, n);
    InTail(PutChild(ScopeR, c, Pred(DIType, ScopeNode), [n]), hd + sz, sc);
  }
  lemma TypeHeadFacts(ty: TypeInfo, n: string)
    ensures Put(Pred(DIType, Name), [n, ty.name]) in TypeHeadSteps(ty, n) <==> ty.name != ""
    ensures Put(Pred(DIType, Line), [n, NatToString(ty.line)]) in TypeHeadSteps(ty, n) <==> ty.line != 0
  {
  }
  lemma InHead(x: Step, a: seq<Step>, b: seq<Step>)
    requires x !in b
    ensures x in a + b <==> x in a
  {
  }
  lemma InTail(x: Step, a: seq<Step>, b: seq<Step>)
    requires x !in a
    ensures x in a + b <==> x in b
  {
  }

  /** Each of the four type writers starts with the common type facts. */
  lemma TypeCommonFirst(d: DiGraph, h: Llvm.Host, node: DiNode, n: string)
    requires node.BasicTypeNode? || node.CompositeTypeNode? || node.DerivedTypeNode? || node.SubroutineTypeNode?
    ensures TypeCommonSteps(h, node.ty, n) <= TypeSteps(d, h, node, n)
  {
  }

  lemma StartsWith(a: seq<Step>, b: seq<Step>)
    ensures a <= a + b
  {
    assert (a + b)[..|a|] == a;
  }

  /** A composite gets the kind fact of its tag for the five tags the switch
      names and none for any other, and always its DWARF tag name. */
  lemma CompositeKind(d: DiGraph, h: Llvm.Host, node: DiNode, n: string)
    requires node.CompositeTypeNode?
    ensures Put(Pred(DICompositeType, Structures), [n]) in CompositeSteps(d, h, node, n) <==> node.ty.tag == TagStructureType
    ensures Put(Pred(DICompositeType, Classes), [n]) in CompositeSteps(d, h, node, n) <==> node.ty.tag == TagClassType
    ensures Put(Pred(DICompositeType, Arrays), [n]) in CompositeSteps(d, h, node, n) <==> node.ty.tag == TagArrayType
    ensures Put(Pred(DICompositeType, Unions), [n]) in CompositeSteps(d, h, node, n) <==> node.ty.tag == TagUnionType
    ensures Put(Pred(DICompositeType, Enumerations), [n]) in CompositeSteps(d, h, node, n)
      <==> node.ty.tag == TagEnumerationType
    ensures Put(Pred(DICompositeType, Kind), [n, h.tagString(node.ty.tag)]) in CompositeSteps(d, h, node, n)
  {
    CompositeOwn(d, h, node, n);
    var head, body := CompositeHeadSteps(h, node, n), CompositeBodySteps(d, node, n);
    forall x: Step | x.Put?
      ensures x in CompositeOwnSteps(d, h, node, n) <==> x in head
    {
      InHead(x, head, body);
    }
    HeadKinds(h, node, n);
  }
  /** Every fact of the composite group comes from the composite's own part. */
  lemma CompositeOwn(d: DiGraph, h: Llvm.Host, node: DiNode, n: string)
    requires node.CompositeTypeNode?
    ensures forall x: Step :: x.pred.group == DICompositeType ==>
      (x in CompositeSteps(d, h, node, n) <==> x in CompositeOwnSteps(d, h, node, n))
  {
    forall x: Step | x.pred.group == DICompositeType
      ensures x in CompositeSteps(d, h, node, n) <==> x in CompositeOwnSteps(d, h, node, n)
    {
      InTail(x, TypeCommonSteps(h, node.ty, n), CompositeOwnSteps(d, h, node, n));
    }
  }

  lemma HeadKinds(h: Llvm.Host, node: DiNode, n: string)
    requires node.CompositeTypeNode?
    ensures var w := CompositeHeadSteps(h, node, n);
      && (Put(Pred(DICompositeType, Structures), [n]) in w <==> node.ty.tag == TagStructureType)
      && (Put(Pred(DICompositeType, Classes), [n]) in w <==> node.ty.tag == TagClassType)
      && (Put(Pred(DICompositeType, Arrays), [n]) in w <==> node.ty.tag == TagArrayType)
      && (Put(Pred(DICompositeType, Unions), [n]) in w <==> node.ty.tag == TagUnionType)
      && (Put(Pred(DICompositeType, Enumerations), [n]) in w <==> node.ty.tag == TagEnumerationType)
      && Put(Pred(DICompositeType, Kind), [n, h.tagString(node.ty.tag)]) in w
  {
  }

  /** Element i of a composite is named at position i with the predicate of
      its class, and every element fact names a node of the class its
      recorder takes. */
  lemma CompositeElements(d: DiGraph, h: Llvm.Host, node: DiNode, n: string, i: nat)
    requires node.CompositeTypeNode? && i < |node.elements| && node.elements[i] in d.nodes
    ensures var e := node.elements[i]; var w := CompositeSteps(d, h, node, n);
      && (IsType(d.nodes[e]) ==> PutChild(TypeR, e, Pred(DICompositeType, Field), [n, NatToString(i)]) in w)
      && (d.nodes[e].EnumeratorNode? ==> PutChild(EnumeratorR, e, Pred(DICompositeType, Enumerator), [n, NatToString(i)]) in w)
      && (d.nodes[e].SubrangeNode? ==> PutChild(SubrangeR, e, Pred(DICompositeType, Subrange), [n, NatToString(i)]) in w)
  {
    CompositeOwn(d, h, node, n);
    var el := ElementSteps(d, node.elements, 0, n);
    forall s | s in ElementStep(d, node.elements[i], i, n)
      ensures s in CompositeSteps(d, h, node, n)
    {
      assert s in el;
      assert s in CompositeBodySteps(d, node, n);
      assert s in CompositeOwnSteps(d, h, node, n);
    }
    ElementStepFacts(d, node.elements[i], i, n);
  }
  lemma ElementStepFacts(d: DiGraph, e: NodeId, i: nat, n: string)
    requires e in d.nodes
    ensures var w := ElementStep(d, e, i, n);
      && (IsType(d.nodes[e]) ==> PutChild(TypeR, e, Pred(DICompositeType, Field), [n, NatToString(i)]) in w)
      && (d.nodes[e].EnumeratorNode? ==> PutChild(EnumeratorR, e, Pred(DICompositeType, Enumerator), [n, NatToString(i)]) in w)
      && (d.nodes[e].SubrangeNode? ==> PutChild(SubrangeR, e, Pred(DICompositeType, Subrange), [n, NatToString(i)]) in w)
  {
  }

  /** Every element fact of a composite names a node its recorder takes. */
  lemma CompositeElementsClassed(d: DiGraph, h: Llvm.Host, node: DiNode, n: string, s: Step)
    requires node.CompositeTypeNode? && s in CompositeSteps(d, h, node, n)
    requires s.pred.group == DICompositeType && s.pred.attr in {Field, Enumerator, Subrange}
    ensures s.PutChild? && s.child in d.nodes && Accepts(s.recorder, d.nodes[s.child])
  {
    CompositeOwn(d, h, node, n);
    var hd, el := CompositeHeadSteps(h, node, n), ElementSteps(d, node.elements, 0, n);
    InTail(s, hd, CompositeBodySteps(d, node, n));
    InHead(s, el, CompositeRefSteps(node, n));
  }

  /** A composite names its base type, v-table holder and file exactly when
      it has them, and its template parameters with their positions. */
  lemma CompositeRefs(d: DiGraph, h: Llvm.Host, node: DiNode, n: string, c: NodeId)
    requires node.CompositeTypeNode?
    ensures PutChild(TypeR, c, Pred(DICompositeType, BaseTypeNode), [n]) in CompositeSteps(d, h, node, n)
      <==> node.baseType == Some(c)
    ensures PutChild(TypeR, c, Pred(DICompositeType, VTableNode), [n]) in CompositeSteps(d, h, node, n)
      <==> node.vtableHolder == Some(c)
    ensures PutChild(FileR, c, Pred(DICompositeType, File), [n]) in CompositeSteps(d, h, node, n)
      <==> node.file == Some(c)
    ensures forall i :: 0 <= i < |node.templateParams| ==>
      PutChild(TemplateParamR, node.templateParams[i], Pred(DICompositeType, TemplateParam), [n, NatToString(i)])
        in CompositeSteps(d, h, node, n)
  {
    CompositeOwn(d, h, node, n);
    var hd, body := CompositeHeadSteps(h, node, n), CompositeBodySteps(d, node, n);
    var el, refs := ElementSteps(d, node.elements, 0, n), CompositeRefSteps(node, n);
    forall x: Step | x.PutChild? && x.pred.attr in {BaseTypeNode, VTableNode, File, TemplateParam}
      ensures x in CompositeOwnSteps(d, h, node, n) <==> x in refs
    {
      InTail(x, hd, body);
      InTail(x, el, refs);
    }
    RefFacts(node, n, c);
  }

  lemma RefFacts(node: DiNode, n: string, c: NodeId)
    requires node.CompositeTypeNode?
    ensures var w := CompositeRefSteps(node, n);
      && (PutChild(TypeR, c, Pred(DICompositeType, BaseTypeNode), [n]) in w <==> node.baseType == Some(c))
      && (PutChild(TypeR, c, Pred(DICompositeType, VTableNode), [n]) in w <==> node.vtableHolder == Some(c))
      && (PutChild(FileR, c, Pred(DICompositeType, File), [n]) in w <==> node.file == Some(c))
      && (forall i :: 0 <= i < |node.templateParams| ==>
            PutChild(TemplateParamR, node.templateParams[i], Pred(DICompositeType, TemplateParam), [n, NatToString(i)]) in w)
  {
    var ix := Indexed(TemplateParamR, node.templateParams, 0, Pred(DICompositeType, TemplateParam), n);
    forall i | 0 <= i < |node.templateParams|
      ensures ix[i] in CompositeRefSteps(node, n)
    {
      assert ix[i] in ix;
    }
  }

  /** A derived type names its base type and file exactly when it has them. */
  lemma DerivedRefs(h: Llvm.Host, node: DiNode, n: string, c: NodeId)
    requires node.DerivedTypeNode?
    ensures PutChild(TypeR, c, Pred(DIDerivedType, BaseTypeNode), [n]) in DerivedSteps(h, node, n)
      <==> node.baseType == Some(c)
    ensures PutChild(FileR, c, Pred(DIDerivedType, File), [n]) in DerivedSteps(h, node, n) <==> node.file == Some(c)
    ensures Put(Pred(DIDerivedType, Kind), [n, h.tagString(node.ty.tag)]) in DerivedSteps(h, node, n)
  {
    forall x: Step | x.pred.group == DIDerivedType
      ensures x in DerivedSteps(h, node, n) <==> x in DerivedOwnSteps(h, node, n)
    {
      InTail(x, TypeCommonSteps(h, node.ty, n), DerivedOwnSteps(h, node, n));
    }
    DerivedOwnFacts(h, node, n, c);
  }
  lemma DerivedOwnFacts(h: Llvm.Host, node: DiNode, n: string, c: NodeId)
    requires node.DerivedTypeNode?
    ensures PutChild(TypeR, c, Pred(DIDerivedType, BaseTypeNode), [n]) in DerivedOwnSteps(h, node, n)
      <==> node.baseType == Some(c)
    ensures PutChild(FileR, c, Pred(DIDerivedType, File), [n]) in DerivedOwnSteps(h, node, n) <==> node.file == Some(c)
    ensures Put(Pred(DIDerivedType, Kind), [n, h.tagString(node.ty.tag)]) in DerivedOwnSteps(h, node, n)
  {
  }

  /** Entry i of a subroutine type's array is written at position i: a
      string as a raw element, a node as a recorded type; null entries are
      skipped, so there are never more element facts than entries. */
  lemma SubroutineElements(h: Llvm.Host, node: DiNode, n: string, i: nat)
    requires node.SubroutineTypeNode? && i < |node.typeArray|
    ensures var e := node.typeArray[i]; var w := SubroutineSteps(h, node, n);
      && (e.StringEntry? ==> Put(Pred(DISubroutineType, RawTypeElem), [n, NatToString(i), e.s]) in w)
      && (e.NodeEntry? ==> PutChild(TypeR, e.id, Pred(DISubroutineType, TypeElem), [n, NatToString(i)]) in w)
    ensures |ArraySteps(node.typeArray, 0, n)| <= |node.typeArray|
  {
    var arr := ArraySteps(node.typeArray, 0, n);
    assert forall s :: s in ArrayStep(node.typeArray[i], i, n) ==> s in arr;
  }

  /** A variable is written as a global or as a local one, never both. */
  lemma VariableKindFacts(node: DiNode, n: string)
    requires node.VariableNode?
    ensures Put(Pred(DIGlobalVar, Id), [n]) in VariableSteps(node, n) <==> node.varKind.GlobalVar?
    ensures Put(Pred(DILocalVar, Id), [n]) in VariableSteps(node, n) <==> node.varKind.LocalVar?
  {
  }

  /** A variable names its type, scope and file exactly when it has them;
      its name and line are written exactly when present. */
  lemma VariableFacts(node: DiNode, n: string, c: NodeId)
    requires node.VariableNode?
    ensures var v := node.v; var w := VariableSteps(node, n);
      && (Put(Pred(DIVariable, Name), [n, v.name]) in w <==> v.name != "")
      && (Put(Pred(DIVariable, Line), [n, NatToString(v.line)]) in w <==> v.line != 0)
      && (PutChild(TypeR, c, Pred(DIVariable, TypeNode), [n]) in w <==> v.typ == Some(c))
      && (PutChild(ScopeR, c, Pred(DIVariable, Scope), [n]) in w <==> v.scope == Some(c))
      && (PutChild(FileR, c, Pred(DIVariable, File), [n]) in w <==> v.file == Some(c))
  {
    var hd := VariableHeadSteps(node.v, n);
    var kind := if node.varKind.GlobalVar? then GlobalVarSteps(node.varKind, n) else LocalVarSteps(node.varKind, n);
    forall x: Step | x.pred.group == DIVariable
      ensures x in VariableSteps(node, n) <==> x in hd
    {
      InHead(x, hd, kind);
    }
    VariableHeadFacts(node.v, n);
    VariableHeadRefs(node.v, n, c);
  }

  lemma VariableHeadFacts(v: VarInfo, n: string)
    ensures Put(Pred(DIVariable, Name), [n, v.name]) in VariableHeadSteps(v, n) <==> v.name != ""
    ensures Put(Pred(DIVariable, Line), [n, NatToString(v.line)]) in VariableHeadSteps(v, n) <==> v.line != 0
  {
  }

  lemma VariableHeadRefs(v: VarInfo, n: string, c: NodeId)
    ensures PutChild(TypeR, c, Pred(DIVariable, TypeNode), [n]) in VariableHeadSteps(v, n) <==> v.typ == Some(c)
    ensures PutChild(ScopeR, c, Pred(DIVariable, Scope), [n]) in VariableHeadSteps(v, n) <==> v.scope == Some(c)
    ensures PutChild(FileR, c, Pred(DIVariable, File), [n]) in VariableHeadSteps(v, n) <==> v.file == Some(c)
  {
  }


  /** A local variable's argument number is written exactly when it is an
      argument, and each of its two flags exactly when set. */
  lemma LocalVarFacts(node: DiNode, n: string)
    requires node.VariableNode? && node.varKind.LocalVar?
    ensures var k := node.varKind; var w := VariableSteps(node, n);
      && (Put(Pred(DILocalVar, ArgNum), [n, NatToString(k.arg)]) in w <==> k.arg != 0)
      && (Put(Pred(DILocalVar, Flag), [n, "artificial"]) in w <==> k.isArtificial)
      && (Put(Pred(DILocalVar, Flag), [n, "objectpointer"]) in w <==> k.isObjectPointer)
  {
    forall x: Step | x.pred.group == DILocalVar
      ensures x in VariableSteps(node, n) <==> x in LocalVarSteps(node.varKind, n)
    {
      InTail(x, VariableHeadSteps(node.v, n), LocalVarSteps(node.varKind, n));
    }
    LocalKindFacts(node.varKind, n);
  }
  lemma LocalKindFacts(k: VarKind, n: string)
    requires k.LocalVar?
    ensures var w := LocalVarSteps(k, n);
      && (Put(Pred(DILocalVar, ArgNum), [n, NatToString(k.arg)]) in w <==> k.arg != 0)
      && (Put(Pred(DILocalVar, Flag), [n, "artificial"]) in w <==> k.isArtificial)
      && (Put(Pred(DILocalVar, Flag), [n, "objectpointer"]) in w <==> k.isObjectPointer)
  {
  }

  /** A global variable's linkage name is written exactly when not empty,
      its two flags exactly when set, and its static member declaration
      exactly when it has one. */
  lemma GlobalVarFacts(node: DiNode, n: string, c: NodeId)
    requires node.VariableNode? && node.varKind.GlobalVar?
    ensures var k := node.varKind; var w := VariableSteps(node, n);
      && (Put(Pred(DIGlobalVar, LinkageName), [n, k.linkageName]) in w <==> k.linkageName != "")
      && (Put(Pred(DIGlobalVar, IsDefinition), [n]) in w <==> k.isDefinition)
      && (Put(Pred(DIGlobalVar, IsLocalToUnit), [n]) in w <==> k.isLocalToUnit)
      && (PutChild(TypeR, c, Pred(DIGlobalVar, StaticDataMemberDecl), [n]) in w <==> k.staticMemberDecl == Some(c))
  {
    forall x: Step | x.pred.group == DIGlobalVar
      ensures x in VariableSteps(node, n) <==> x in GlobalVarSteps(node.varKind, n)
    {
      InTail(x, VariableHeadSteps(node.v, n), GlobalVarSteps(node.varKind, n));
    }
    GlobalKindFacts(node.varKind, n, c);
  }
  lemma GlobalKindFacts(k: VarKind, n: string, c: NodeId)
    requires k.GlobalVar?
    ensures var w := GlobalVarSteps(k, n);
      && (Put(Pred(DIGlobalVar, LinkageName), [n, k.linkageName]) in w <==> k.linkageName != "")
      && (Put(Pred(DIGlobalVar, IsDefinition), [n]) in w <==> k.isDefinition)
      && (Put(Pred(DIGlobalVar, IsLocalToUnit), [n]) in w <==> k.isLocalToUnit)
      && (PutChild(TypeR, c, Pred(DIGlobalVar, StaticDataMemberDecl), [n]) in w <==> k.staticMemberDecl == Some(c))
  {
  }

  /** A template parameter is written as a type or a value parameter by its
      kind; a constant value is written through the fact generator exactly
      when the value is a constant. */
  lemma TemplateParamKind(d: DiGraph, node: DiNode, n: string, c: Llvm.Value)
    requires node.TemplateParamNode?
    ensures Put(Pred(DITemplateTypeParam, Id), [n]) in TemplateParamSteps(d, node, n) <==> node.tplKind.TypeParam?
    ensures Put(Pred(DITemplateValueParam, Id), [n]) in TemplateParamSteps(d, node, n) <==> node.tplKind.ValueParam?
    ensures PutConstant(c, Pred(DITemplateValueParam, Value), [n]) in TemplateParamSteps(d, node, n)
      <==> node.tplKind == ValueParam(ConstantValue(Some(c)))
  {
  }

  /** The operands of a tuple value that are template parameters are named
      with their positions, and every element fact names a template
      parameter. */
  lemma TemplateTuple(d: DiGraph, node: DiNode, n: string, i: nat)
    requires node.TemplateParamNode? && node.tplKind.ValueParam? && node.tplKind.value.TupleValue?
    requires var items := node.tplKind.value.items;
      i < |items| && items[i].Some? && items[i].value in d.nodes && d.nodes[items[i].value].TemplateParamNode?
    ensures PutChild(TemplateParamR, node.tplKind.value.items[i].value, Pred(DITemplateValueParam, Elements),
      [n, NatToString(i)]) in TemplateParamSteps(d, node, n)
    ensures forall s :: s in TemplateParamSteps(d, node, n) && s.pred == Pred(DITemplateValueParam, Elements) ==>
      s.PutChild? && s.child in d.nodes && d.nodes[s.child].TemplateParamNode?
  {
    var items := node.tplKind.value.items;
    var t := TupleSteps(d, items, 0, n);
    assert forall s :: s in TupleStep(d, items[i], i, n) ==> s in t;
  }

  /** The lower bound is written only for LLVM before 13 and only when not
      zero; the count always, zero when it is not a constant. */
  lemma SubrangeFacts(llvmMajor: nat, node: DiNode, n: string)
    requires node.SubrangeNode?
    ensures Put(Pred(DISubrange, LowerBound), [n, IntToString(node.lowerBound)]) in SubrangeSteps(llvmMajor, node, n)
      <==> llvmMajor < 13 && node.lowerBound != 0
    ensures Put(Pred(DISubrange, Count), [n, IntToString(CountOf(node))]) in SubrangeSteps(llvmMajor, node, n)
    ensures node.count.None? ==> CountOf(node) == 0
  {
  }

  /** An imported entity always gets its name and line; its entity is
      written raw when it is a string, recorded when it is a scope node,
      and not at all otherwise. */
  lemma ImportedEntityFacts(d: DiGraph, node: DiNode, n: string, c: NodeId, x: string)
    requires node.ImportedEntityNode?
    ensures var w := ImportedEntitySteps(d, node, n);
      && Put(Pred(DIImportedEntity, Name), [n, node.name]) in w
      && Put(Pred(DIImportedEntity, Line), [n, NatToString(node.line)]) in w
      && (PutChild(ScopeR, c, Pred(DIImportedEntity, Scope), [n]) in w <==> node.scope == Some(c))
      && (Put(Pred(DIImportedEntity, EntityRaw), [n, x]) in w <==> node.entity == StringEntity(x))
      && (PutChild(ScopeR, c, Pred(DIImportedEntity, EntityNode), [n]) in w
          <==> node.entity == NodeEntity(c) && c in d.nodes && IsScope(d.nodes[c]))
  {
  }

  /** A location names its scope and the location it is inlined at exactly
      when it has them. */
  lemma LocationRefs(node: DiNode, n: string, c: NodeId)
    requires node.LocationNode?
    ensures PutChild(ScopeR, c, Pred(DILocation, Scope), [n]) in LocationSteps(node, n) <==> node.scope == Some(c)
    ensures PutChild(LocationR, c, Pred(DILocation, InlinedAt), [n]) in LocationSteps(node, n) <==> node.inlinedAt == Some(c)
  {
  }
}
