// writeFunction: the facts of a function's signature, and of its parameters
// when it is a definition. Two variants of the writer exist: the current one
// (predicate group `func`) and an older one (group `function`) that also
// writes the function's attributes through writeFnAttributes, which the call
// and invoke templates share.
module Functions {
  import opened Common
  import opened LlvmEnums
  import opened Llvm
  import opened Contexts
  import opened Refmodes
  import opened Generator
  import opened Constants
  import opened Demangler

  /** Which writer: Functions.cpp (current) or functions.cpp (older). */
  datatype Variant = Current | Older

  /** The predicate `member` of the variant's group. The current variant
      calls its type predicate `ty`, the older one `type`. */
  function FnPred(v: Variant, member: string): string {
    if v.Current? then
      "func::" + (if member == "type" then "ty" else member)
    else "function::" + member
  }

  // ---------------------------------------------------------------------
  // Attributes
  // ---------------------------------------------------------------------

  /** The attribute text with every '"' removed (the erase-remove idiom). */
  function RemoveQuotes(s: string): (r: string)
    ensures '"' !in r && |r| <= |s|
    ensures forall c :: c != '"' ==> (c in r <==> c in s)
  {
    if |s| == 0 then ""
    else if s[|s| - 1] == '"' then RemoveQuotes(s[..|s| - 1])
    else RemoveQuotes(s[..|s| - 1]) + [s[|s| - 1]]
  }

  /** Text without quotes is left alone, so removing them twice is removing
      them once. */
  lemma {:induction false} RemoveQuotesNoQuotes(s: string)
    requires forall k :: 0 <= k < |s| ==> s[k] != '"'
    ensures RemoveQuotes(s) == s
  {
    if |s| > 0 {
      RemoveQuotesNoQuotes(s[..|s| - 1]);
      assert s == s[..|s| - 1] + [s[|s| - 1]];
    }
  }

  lemma RemoveQuotesIdempotent(s: string)
    ensures RemoveQuotes(RemoveQuotes(s)) == RemoveQuotes(s)
  {
    RemoveQuotesNoQuotes(RemoveQuotes(s));
  }

  /** `attr.erase(std::remove(attr.begin(), attr.end(), '"'), attr.end())`:
      the kept characters move down over the removed ones in place, then the
      tail is cut off. */
  method EraseQuotes(a: array<char>) returns (n: nat)
    modifies a
    ensures n <= a.Length
    ensures a[..n] == RemoveQuotes(old(a[..]))
  {
    ghost var orig := a[..];
    n := 0;
    var i := 0;
    while i < a.Length
      invariant n <= i <= a.Length
      invariant a[..n] == RemoveQuotes(orig[..i])
      invariant forall k :: i <= k < a.Length ==> a[k] == orig[k]
    {
      assert orig[..i + 1] == orig[..i] + [orig[i]];
      if a[i] != '"' {
        a[n] := a[i];
        n := n + 1;
      }
      i := i + 1;
    }
    assert orig[..a.Length] == orig;
  }

  /** The fact an attribute is recorded under, routed by its slot index:
      the return slot to ret_attr, the function slot to fn_attr, argument k
      (list index k + 1) to param_attr with index k. */
  function RoutedAttr(group: string, ref: string, index: AttrIndex, attr: string): Fact {
    match index
    case ReturnIdx => Fact(group + "::ret_attr", [ref, attr])
    case FunctionIdx => Fact(group + "::fn_attr", [ref, attr])
    case ArgIdx(k) => Fact(group + "::param_attr", [ref, NatToString(k), attr])
  }

  /** The facts of one attribute: a target_dependent fact for a string
      attribute, then the routed fact, both with the quotes removed. */
  function AttrFacts(group: string, ref: string, index: AttrIndex, at: Attribute): seq<Fact> {
    var attr := RemoveQuotes(at.text);
    (if at.isString then [Fact("attribute::target_dependent", [attr])] else [])
    + [RoutedAttr(group, ref, index, attr)]
  }

  /** The facts of the first n attributes of a slot. */
  function SlotFacts(group: string, ref: string, slot: AttrSlot, n: nat): seq<Fact>
    requires n <= |slot.attrs|
  {
    if n == 0 then []
    else SlotFacts(group, ref, slot, n - 1) + AttrFacts(group, ref, slot.index, slot.attrs[n - 1])
  }

  /** The facts of the first n slots of an attribute list. */
  function ListFacts(group: string, ref: string, slots: seq<AttrSlot>, n: nat): seq<Fact>
    requires n <= |slots|
  {
    if n == 0 then []
    else ListFacts(group, ref, slots, n - 1) + SlotFacts(group, ref, slots[n - 1], |slots[n - 1].attrs|)
  }

  /** writeFnAttributes<group>(ref, list): the facts it appends. */
  function FnAttrFacts(group: string, ref: string, al: AttributeList): seq<Fact> {
    ListFacts(group, ref, al.slots, |al.slots|)
  }

  /** Every attribute of every slot is recorded, quotes removed, under the
      predicate its slot index selects. */
  lemma {:induction false} SlotFactsHas(group: string, ref: string, slot: AttrSlot, n: nat, j: nat)
    requires j < n <= |slot.attrs|
    ensures RoutedAttr(group, ref, slot.index, RemoveQuotes(slot.attrs[j].text)) in SlotFacts(group, ref, slot, n)
  {
    if j < n - 1 {
      SlotFactsHas(group, ref, slot, n - 1, j);
    }
  }

  lemma {:induction false} ListFactsHas(group: string, ref: string, slots: seq<AttrSlot>, n: nat, i: nat, j: nat)
    requires i < n <= |slots| && j < |slots[i].attrs|
    ensures RoutedAttr(group, ref, slots[i].index, RemoveQuotes(slots[i].attrs[j].text)) in ListFacts(group, ref, slots, n)
  {
    if i < n - 1 {
      ListFactsHas(group, ref, slots, n - 1, i, j);
    } else {
      SlotFactsHas(group, ref, slots[i], |slots[i].attrs|, j);
    }
  }

  lemma FnAttrFactsRouted(group: string, ref: string, al: AttributeList, i: nat, j: nat)
    requires i < |al.slots| && j < |al.slots[i].attrs|
    ensures RoutedAttr(group, ref, al.slots[i].index, RemoveQuotes(al.slots[i].attrs[j].text)) in FnAttrFacts(group, ref, al)
  {
    ListFactsHas(group, ref, al.slots, |al.slots|, i, j);
  }

  /** Conversely every fact is either a target_dependent fact or a routed
      attribute fact of the group, and no written text holds a quote. */
  predicate AttrShaped(group: string, ref: string, f: Fact) {
    || (f.pred == "attribute::target_dependent" && |f.cols| == 1 && '"' !in f.cols[0])
    || (f.pred in {group + "::ret_attr", group + "::fn_attr"} && |f.cols| == 2 && f.cols[0] == ref && '"' !in f.cols[1])
    || (f.pred == group + "::param_attr" && |f.cols| == 3 && f.cols[0] == ref && '"' !in f.cols[2])
  }

  lemma {:induction false} SlotFactsShaped(group: string, ref: string, slot: AttrSlot, n: nat)
    requires n <= |slot.attrs|
    ensures forall f :: f in SlotFacts(group, ref, slot, n) ==> AttrShaped(group, ref, f)
  {
    if n > 0 {
      SlotFactsShaped(group, ref, slot, n - 1);
    }
  }

  lemma {:induction false} ListFactsShaped(group: string, ref: string, slots: seq<AttrSlot>, n: nat)
    requires n <= |slots|
    ensures forall f :: f in ListFacts(group, ref, slots, n) ==> AttrShaped(group, ref, f)
  {
    if n > 0 {
      ListFactsShaped(group, ref, slots, n - 1);
      SlotFactsShaped(group, ref, slots[n - 1], |slots[n - 1].attrs|);
    }
  }

  /** A return slot holding one plain attribute whose text is also the
      list's whole return text, quotes aside, yields the same ret_attr fact
      twice: once from the whole-string write and once from the slot. */
  lemma ReturnAttrTwice(ref: string, al: AttributeList, i: nat)
    requires i < |al.slots| && al.slots[i].index.ReturnIdx? && |al.slots[i].attrs| == 1
    requires '"' !in al.returnText && al.slots[i].attrs[0].text == al.returnText
    ensures HasReturnAttrs(al)
    ensures Fact("function::ret_attr", [ref, al.returnText]) in FnAttrFacts("function", ref, al)
  {
    FnAttrFactsRouted("function", ref, al, i, 0);
    RemoveQuotesNoQuotes(al.returnText);
    assert "function" + "::ret_attr" == "function::ret_attr";
  }

  /** writeFnAttributes on the generator object: the nested slot and
      attribute loops. */
  method WriteFnAttributes(gen: FactGenerator, group: string, ref: string, al: AttributeList)
    requires gen.Valid()
    modifies gen
    ensures gen.Valid() && gen.ctx == old(gen.ctx)
    ensures gen.St() == old(gen.St()).(facts := old(gen.facts) + FnAttrFacts(group, ref, al))
  {
    var i := 0;
    while i < |al.slots|
      invariant i <= |al.slots|
      invariant gen.Valid() && gen.ctx == old(gen.ctx)
      invariant gen.St() == old(gen.St()).(facts := old(gen.facts) + ListFacts(group, ref, al.slots, i))
    {
      WriteSlotAttributes(gen, group, ref, al.slots[i]);
      i := i + 1;
    }
  }

  method WriteSlotAttributes(gen: FactGenerator, group: string, ref: string, slot: AttrSlot)
    requires gen.Valid()
    modifies gen
    ensures gen.Valid() && gen.ctx == old(gen.ctx)
    ensures gen.St() == old(gen.St()).(facts := old(gen.facts) + SlotFacts(group, ref, slot, |slot.attrs|))
  {
    var j := 0;
    while j < |slot.attrs|
      invariant j <= |slot.attrs|
      invariant gen.Valid() && gen.ctx == old(gen.ctx)
      invariant gen.St() == old(gen.St()).(facts := old(gen.facts) + SlotFacts(group, ref, slot, j))
    {
      WriteAttribute(gen, group, ref, slot.index, slot.attrs[j]);
      j := j + 1;
    }
  }

  /** One attribute: its text with the quotes erased, the target_dependent
      fact for a string attribute, and the routed fact. */
  method WriteAttribute(gen: FactGenerator, group: string, ref: string, index: AttrIndex, at: Attribute)
    requires gen.Valid()
    modifies gen
    ensures gen.Valid() && gen.ctx == old(gen.ctx)
    ensures gen.St() == old(gen.St()).(facts := old(gen.facts) + AttrFacts(group, ref, index, at))
  {
    var buf := new char[|at.text|](k requires 0 <= k < |at.text| => at.text[k]);
    assert buf[..] == at.text;
    var n := EraseQuotes(buf);
    var attr := buf[..n];
    if at.isString {
      gen.WriteFact("attribute::target_dependent", [attr]);
    }
    match index {
      case ReturnIdx => gen.WriteFact(group + "::ret_attr", [ref, attr]);
      case FunctionIdx => gen.WriteFact(group + "::fn_attr", [ref, attr]);
      case ArgIdx(k) => gen.WriteFact(group + "::param_attr", [ref, NatToString(k), attr]);
    }
  }

  // ---------------------------------------------------------------------
  // The function writer
  // ---------------------------------------------------------------------

  /** Type (recorded), demangled signature, then linkage and visibility when
      their names are non-empty, alignment when non-zero, gc when present. */
  function FunctionPre(g: TypeGraph, h: Host, s: GenState, v: Variant, f: Function, funcref: string): GenState {
    var visibility := VisibilityName(f.visibility);
    var linkage := LinkageName(f.linkage);
    var (typeSignature, s) := RecordTy(g, s, f.fnType);
    var s := Emit(s, FnPred(v, "type"), [funcref, typeSignature]);
    var s := Emit(s, FnPred(v, "signature"), [funcref, Demangle(h, f.self.name)]);
    var s := if |linkage| > 0 then Emit(s, FnPred(v, "linkage"), [funcref, linkage]) else s;
    var s := if |visibility| > 0 then Emit(s, FnPred(v, "visibility"), [funcref, visibility]) else s;
    var s := if f.alignment != 0 then Emit(s, FnPred(v, "alignment"), [funcref, NatToString(f.alignment)]) else s;
    match f.gc
    case None => s
    case Some(gc) => Emit(s, FnPred(v, "gc"), [funcref, gc])
  }

  /** The personality constant and its link, when the function has one. */
  function FunctionPersonality(g: TypeGraph, h: Host, s: GenState, v: Variant, f: Function, funcref: string): GenState {
    match f.personality
    case None => s
    case Some(c) =>
      var (persFnRef, s) := WriteConstant(g, h, s, c);
      Emit(s, FnPred(v, "pers_fn"), [funcref, persFnRef])
  }

  /** The calling convention unless it is C, the "@"-name and the
      unnamed_addr marker; the older variant then writes the attributes. */
  function FunctionPost(h: Host, s: GenState, v: Variant, f: Function, funcref: string): GenState {
    var s := FunctionNaming(h, s, v, f, funcref);
    if v.Current? then s else FunctionAttributes(s, f, funcref)
  }

  function FunctionNaming(h: Host, s: GenState, v: Variant, f: Function, funcref: string): GenState {
    var s := if !f.conv.C? then Emit(s, FnPred(v, "calling_conv"), [funcref, ConvText(h, f.conv)]) else s;
    var s := Emit(s, FnPred(v, "name"), [funcref, "@" + f.self.name]);
    if f.globalUnnamedAddr then Emit(s, FnPred(v, "unnamed_addr"), [funcref]) else s
  }

  /** The older variant's attributes: the return attributes as one string
      when there are any, then every attribute. */
  function FunctionAttributes(s: GenState, f: Function, funcref: string): GenState {
    var s := if HasReturnAttrs(f.attributes)
             then Emit(s, "function::ret_attr", [funcref, f.attributes.returnText]) else s;
    s.(facts := s.facts + FnAttrFacts("function", funcref, f.attributes))
  }

  /** One round of the parameter loop: the argument's refmode, its
      result-map entry, the param fact at the index, its variable type. */
  function ParamStep(g: TypeGraph, s: GenState, v: Variant, arg: Value, funcref: string, index: nat): GenState {
    var (varId, s) := ValueRef(g, s, arg);
    var s := AddResult(s, varId, arg.id);
    var s := Emit(s, FnPred(v, "param"), [funcref, NatToString(index), varId]);
    RecordVar(s, varId, arg.ty)
  }

  /** The first n rounds of the parameter loop. */
  function Params(g: TypeGraph, s: GenState, v: Variant, args: seq<Value>, funcref: string, n: nat): GenState
    requires n <= |args|
  {
    if n == 0 then s
    else ParamStep(g, Params(g, s, v, args, funcref, n - 1), v, args[n - 1], funcref, n - 1)
  }

  /** A declaration: id_decl and nothing more. A definition: id_defn, the
      section when present, the parameters. */
  function FunctionBody(g: TypeGraph, s: GenState, v: Variant, f: Function, funcref: string): GenState {
    if f.isDeclaration then Emit(s, FnPred(v, "id_decl"), [funcref])
    else Params(g, DefinitionHead(s, v, f, funcref), v, f.args, funcref, |f.args|)
  }

  /** A definition's id_defn and, when present, its section. */
  function DefinitionHead(s: GenState, v: Variant, f: Function, funcref: string): GenState {
    var s := Emit(s, FnPred(v, "id_defn"), [funcref]);
    match f.section
    case None => s
    case Some(sec) => Emit(s, FnPred(v, "section"), [funcref, sec])
  }

  /** writeFunction(func, funcref). */
  function WriteFunction(g: TypeGraph, h: Host, s: GenState, v: Variant, f: Function, funcref: string): GenState {
    var s := FunctionPre(g, h, s, v, f, funcref);
    var s := FunctionPersonality(g, h, s, v, f, funcref);
    var s := FunctionPost(h, s, v, f, funcref);
    FunctionBody(g, s, v, f, funcref)
  }

  // ---------------------------------------------------------------------
  // What the writer writes
  // ---------------------------------------------------------------------

  /** The facts before the personality. Linkage and visibility names are
      never empty, so both are always written. */
  function PreFacts(g: TypeGraph, h: Host, v: Variant, f: Function, funcref: string): seq<Fact> {
    [Fact(FnPred(v, "type"), [funcref, TypeRefmode(g, f.fnType)]),
     Fact(FnPred(v, "signature"), [funcref, Demangle(h, f.self.name)]),
     Fact(FnPred(v, "linkage"), [funcref, LinkageName(f.linkage)]),
     Fact(FnPred(v, "visibility"), [funcref, VisibilityName(f.visibility)])]
    + When(f.alignment != 0, Fact(FnPred(v, "alignment"), [funcref, NatToString(f.alignment)]))
    + When(f.gc.Some?, Fact(FnPred(v, "gc"), [funcref, if f.gc.Some? then f.gc.value else ""]))
  }

  /** The facts after the personality and before the body. */
  function PostFacts(h: Host, v: Variant, f: Function, funcref: string): seq<Fact> {
    NamingFacts(h, v, f, funcref) + (if v.Current? then [] else AttributeFacts(f, funcref))
  }

  function NamingFacts(h: Host, v: Variant, f: Function, funcref: string): seq<Fact> {
    When(!f.conv.C?, Fact(FnPred(v, "calling_conv"), [funcref, ConvText(h, f.conv)]))
    + [Fact(FnPred(v, "name"), [funcref, "@" + f.self.name])]
    + When(f.globalUnnamedAddr, Fact(FnPred(v, "unnamed_addr"), [funcref]))
  }

  /** The older variant's attribute facts. */
  function AttributeFacts(f: Function, funcref: string): seq<Fact> {
    When(HasReturnAttrs(f.attributes), Fact("function::ret_attr", [funcref, f.attributes.returnText]))
    + FnAttrFacts("function", funcref, f.attributes)
  }

  lemma PreShape(g: TypeGraph, h: Host, s: GenState, v: Variant, f: Function, funcref: string)
    ensures FunctionPre(g, h, s, v, f, funcref)
         == s.(facts := s.facts + PreFacts(g, h, v, f, funcref), types := s.types + {f.fnType})
  {
    var p := PreFacts(g, h, v, f, funcref);
    var al := When(f.alignment != 0, Fact(FnPred(v, "alignment"), [funcref, NatToString(f.alignment)]));
    var gc := When(f.gc.Some?, Fact(FnPred(v, "gc"), [funcref, if f.gc.Some? then f.gc.value else ""]));
    assert s.facts + p == s.facts + [p[0]] + [p[1]] + [p[2]] + [p[3]] + al + gc;
  }

  lemma AttributesShape(s: GenState, f: Function, funcref: string)
    ensures FunctionAttributes(s, f, funcref) == s.(facts := s.facts + AttributeFacts(f, funcref))
  {
    var r := When(HasReturnAttrs(f.attributes), Fact("function::ret_attr", [funcref, f.attributes.returnText]));
    assert s.facts + AttributeFacts(f, funcref) == s.facts + r + FnAttrFacts("function", funcref, f.attributes);
  }

  lemma NamingShape(h: Host, s: GenState, v: Variant, f: Function, funcref: string)
    ensures FunctionNaming(h, s, v, f, funcref) == s.(facts := s.facts + NamingFacts(h, v, f, funcref))
  {
    var cc := When(!f.conv.C?, Fact(FnPred(v, "calling_conv"), [funcref, ConvText(h, f.conv)]));
    var nm := [Fact(FnPred(v, "name"), [funcref, "@" + f.self.name])];
    var ua := When(f.globalUnnamedAddr, Fact(FnPred(v, "unnamed_addr"), [funcref]));
    assert s.facts + NamingFacts(h, v, f, funcref) == s.facts + cc + nm + ua;
  }

  lemma OlderPostShape(h: Host, s: GenState, f: Function, funcref: string)
    requires FunctionNaming(h, s, Older, f, funcref) == s.(facts := s.facts + NamingFacts(h, Older, f, funcref))
    ensures FunctionPost(h, s, Older, f, funcref) == s.(facts := s.facts + PostFacts(h, Older, f, funcref))
  {
    var mid := FunctionNaming(h, s, Older, f, funcref);
    AttributesShape(mid, f, funcref);
    AppendTwice(s, NamingFacts(h, Older, f, funcref), AttributeFacts(f, funcref));
  }

  lemma PostShape(h: Host, s: GenState, v: Variant, f: Function, funcref: string)
    ensures FunctionPost(h, s, v, f, funcref) == s.(facts := s.facts + PostFacts(h, v, f, funcref))
  {
    NamingShape(h, s, v, f, funcref);
    if v.Older? {
      OlderPostShape(h, s, f, funcref);
    }
  }

  /** Whether f is the param fact at index i naming a cached variable. */
  ghost predicate ParamFact(u: GenState, v: Variant, funcref: string, f: Fact, i: nat) {
    && f.pred == FnPred(v, "param")
    && |f.cols| == 3 && f.cols[0] == funcref && f.cols[1] == NatToString(i)
    && f.cols[2] in u.vars && f.cols[2] in u.results
  }

  /** The refmodes the param facts name. */
  function ParamRefs(fs: seq<Fact>): set<string> {
    set f | f in fs && |f.cols| == 3 :: f.cols[2]
  }

  lemma ParamRefsSnoc(fs: seq<Fact>, f: Fact)
    requires |f.cols| == 3
    ensures ParamRefs(fs + [f]) == ParamRefs(fs) + {f.cols[2]}
  {
    assert forall x :: x in fs + [f] <==> x in fs || x == f;
  }

  /** u is p after one round of the parameter loop at the given index. */
  ghost predicate ParamRound(p: GenState, u: GenState, v: Variant, funcref: string, index: nat) {
    && |u.facts| == |p.facts| + 1 && u.facts[..|p.facts|] == p.facts
    && ParamFact(u, v, funcref, u.facts[|p.facts|], index)
    && u.vars.Keys == p.vars.Keys + {u.facts[|p.facts|].cols[2]}
    && p.results.Keys <= u.results.Keys
    && u.types == p.types && SameShape(p.ctx, u.ctx)
  }

  /** u is s after n rounds: one param fact per round, at indices 0, 1, 2,
      ... in order, each naming a refmode that is then a cached variable and
      a result-map key; no other variable cached, no type recorded, only
      frame numberings changed. */
  ghost predicate ParamRounds(s: GenState, u: GenState, v: Variant, funcref: string, n: nat) {
    && |u.facts| == |s.facts| + n && u.facts[..|s.facts|] == s.facts
    && (forall i :: 0 <= i < n ==> ParamFact(u, v, funcref, u.facts[|s.facts|..][i], i))
    && u.vars.Keys == s.vars.Keys + ParamRefs(u.facts[|s.facts|..])
    && s.results.Keys <= u.results.Keys
    && u.types == s.types
    && SameShape(s.ctx, u.ctx)
  }

  /** One round of the loop writes one param fact for the argument's
      refmode, which it caches as a variable of the argument's type. */
  lemma ParamStepFacts(g: TypeGraph, s: GenState, v: Variant, arg: Value, funcref: string, index: nat)
    ensures ParamRound(s, ParamStep(g, s, v, arg, funcref, index), v, funcref, index)
    ensures var r := ValueRef(g, s, arg).0;
      ParamStep(g, s, v, arg, funcref, index).facts[|s.facts|].cols[2] == r
      && ParamStep(g, s, v, arg, funcref, index).vars[r] == arg.ty
  {
  }

  lemma RoundsThenRound(s: GenState, p: GenState, u: GenState, v: Variant, funcref: string, n: nat)
    requires ParamRounds(s, p, v, funcref, n) && ParamRound(p, u, v, funcref, n)
    ensures ParamRounds(s, u, v, funcref, n + 1)
  {
    var pa, ua := p.facts[|s.facts|..], u.facts[|s.facts|..];
    assert ua == pa + [u.facts[|p.facts|]];
    ParamRefsSnoc(pa, u.facts[|p.facts|]);
    forall i | 0 <= i < n + 1 ensures ParamFact(u, v, funcref, ua[i], i) {
      if i < n {
        assert ua[i] == pa[i];
      }
    }
  }

  /** The parameter loop as a whole. The state is passed as u so that no
      proof obligation below has to unfold the loop itself. */
  lemma {:induction false} ParamsFacts(g: TypeGraph, s: GenState, v: Variant, args: seq<Value>, funcref: string, n: nat, u: GenState)
    requires n <= |args| && u == Params(g, s, v, args, funcref, n)
    ensures ParamRounds(s, u, v, funcref, n)
  {
    if n > 0 {
      var p := Params(g, s, v, args, funcref, n - 1);
      ParamsFacts(g, s, v, args, funcref, n - 1, p);
      StepThenRound(g, s, p, v, args[n - 1], funcref, n - 1);
    } else {
      NoRounds(s, v, funcref);
    }
  }

  lemma StepThenRound(g: TypeGraph, s: GenState, p: GenState, v: Variant, arg: Value, funcref: string, n: nat)
    requires ParamRounds(s, p, v, funcref, n)
    ensures ParamRounds(s, ParamStep(g, p, v, arg, funcref, n), v, funcref, n + 1)
  {
    ParamStepFacts(g, p, v, arg, funcref, n);
    RoundsThenRound(s, p, ParamStep(g, p, v, arg, funcref, n), v, funcref, n);
  }

  lemma NoRounds(s: GenState, v: Variant, funcref: string)
    ensures ParamRounds(s, s, v, funcref, 0)
  {
    assert s.facts[|s.facts|..] == [];
    assert ParamRefs([]) == {};
  }

  /** A declaration ends with id_decl and writes no id_defn, section or
      param fact and caches no variable. */
  lemma DeclarationStops(g: TypeGraph, s: GenState, v: Variant, f: Function, funcref: string)
    requires f.isDeclaration
    ensures FunctionBody(g, s, v, f, funcref) == s.(facts := s.facts + [Fact(FnPred(v, "id_decl"), [funcref])])
  {
  }

  /** A definition writes id_defn, then the section when present, then one
      param fact per argument. */
  lemma DefinitionParams(g: TypeGraph, s: GenState, v: Variant, f: Function, funcref: string)
    requires !f.isDeclaration
    ensures var u := FunctionBody(g, s, v, f, funcref);
      var head := [Fact(FnPred(v, "id_defn"), [funcref])]
                + When(f.section.Some?, Fact(FnPred(v, "section"), [funcref, if f.section.Some? then f.section.value else ""]));
      ParamRounds(s.(facts := s.facts + head), u, v, funcref, |f.args|)
  {
    var head := [Fact(FnPred(v, "id_defn"), [funcref])]
              + When(f.section.Some?, Fact(FnPred(v, "section"), [funcref, if f.section.Some? then f.section.value else ""]));
    assert DefinitionHead(s, v, f, funcref) == s.(facts := s.facts + head);
    ParamsFacts(g, DefinitionHead(s, v, f, funcref), v, f.args, funcref, |f.args|, FunctionBody(g, s, v, f, funcref));
  }

  /** The whole writer: the fixed facts before the personality, the
      personality constant linked by pers_fn when there is one, the facts
      after it, then the body. */
  lemma WriteFunctionShape(g: TypeGraph, h: Host, s: GenState, v: Variant, f: Function, funcref: string)
    ensures var pre := s.(facts := s.facts + PreFacts(g, h, v, f, funcref), types := s.types + {f.fnType});
      var pers := FunctionPersonality(g, h, pre, v, f, funcref);
      && WriteFunction(g, h, s, v, f, funcref)
           == FunctionBody(g, pers.(facts := pers.facts + PostFacts(h, v, f, funcref)), v, f, funcref)
      && (f.personality.None? ==> pers == pre)
      && (f.personality.Some? ==>
            LinksConstant(pre, pers, FnPred(v, "pers_fn"), funcref, Written(f.personality.value)))
  {
    PreShape(g, h, s, v, f, funcref);
    var pre := FunctionPre(g, h, s, v, f, funcref);
    var pers := FunctionPersonality(g, h, pre, v, f, funcref);
    PostShape(h, pers, v, f, funcref);
    if f.personality.Some? {
      LinkedConstant(g, h, pre, f.personality.value, FnPred(v, "pers_fn"), funcref);
    }
  }

  /** The calling-convention fact is written exactly when the convention is
      not C; the older variant is the only one that writes attributes. */
  lemma PostFactsCases(h: Host, v: Variant, f: Function, funcref: string)
    ensures var p := PostFacts(h, v, f, funcref);
      && (f.conv.C? ==> p[0].pred == FnPred(v, "name"))
      && (!f.conv.C? ==> p[0] == Fact(FnPred(v, "calling_conv"), [funcref, ConvText(h, f.conv)]))
      && (v.Current? ==> |p| == (if f.conv.C? then 1 else 2) + (if f.globalUnnamedAddr then 1 else 0))
  {
  }

  // ---------------------------------------------------------------------
  // The writer on the generator object
  // ---------------------------------------------------------------------

  method WriteFunctionM(gen: FactGenerator, v: Variant, f: Function, funcref: string)
    requires gen.Valid()
    modifies gen, gen.ctx
    ensures gen.Valid() && gen.ctx == old(gen.ctx)
    ensures gen.St() == WriteFunction(gen.graph, gen.host, old(gen.St()), v, f, funcref)
  {
    WriteFunctionPre(gen, v, f, funcref);
    if f.personality.Some? {
      var persFnRef := WriteConstantM(gen, f.personality.value);
      gen.WriteFact(FnPred(v, "pers_fn"), [funcref, persFnRef]);
    }
    WriteFunctionPost(gen, v, f, funcref);
    if f.isDeclaration {
      gen.WriteFact(FnPred(v, "id_decl"), [funcref]);
      return;
    }
    WriteDefinitionHead(gen, v, f, funcref);
    WriteParams(gen, v, f.args, funcref);
  }

  method WriteDefinitionHead(gen: FactGenerator, v: Variant, f: Function, funcref: string)
    requires gen.Valid()
    modifies gen
    ensures gen.Valid() && gen.ctx == old(gen.ctx)
    ensures gen.St() == DefinitionHead(old(gen.St()), v, f, funcref)
  {
    gen.WriteFact(FnPred(v, "id_defn"), [funcref]);
    if f.section.Some? {
      gen.WriteFact(FnPred(v, "section"), [funcref, f.section.value]);
    }
  }

  method WriteFunctionPre(gen: FactGenerator, v: Variant, f: Function, funcref: string)
    requires gen.Valid()
    modifies gen
    ensures gen.Valid() && gen.ctx == old(gen.ctx)
    ensures gen.St() == FunctionPre(gen.graph, gen.host, old(gen.St()), v, f, funcref)
  {
    var visibility := VisibilityName(f.visibility);
    var linkage := LinkageName(f.linkage);
    var typeSignature := gen.RecordType(f.fnType);
    gen.WriteFact(FnPred(v, "type"), [funcref, typeSignature]);
    gen.WriteFact(FnPred(v, "signature"), [funcref, Demangle(gen.host, f.self.name)]);
    if |linkage| > 0 {
      gen.WriteFact(FnPred(v, "linkage"), [funcref, linkage]);
    }
    if |visibility| > 0 {
      gen.WriteFact(FnPred(v, "visibility"), [funcref, visibility]);
    }
    if f.alignment != 0 {
      gen.WriteFact(FnPred(v, "alignment"), [funcref, NatToString(f.alignment)]);
    }
    if f.gc.Some? {
      gen.WriteFact(FnPred(v, "gc"), [funcref, f.gc.value]);
    }
  }

  method WriteFunctionPost(gen: FactGenerator, v: Variant, f: Function, funcref: string)
    requires gen.Valid()
    modifies gen
    ensures gen.Valid() && gen.ctx == old(gen.ctx)
    ensures gen.St() == FunctionPost(gen.host, old(gen.St()), v, f, funcref)
  {
    WriteFunctionNaming(gen, v, f, funcref);
    if v.Older? {
      WriteFunctionAttributes(gen, f, funcref);
    }
  }

  method WriteFunctionNaming(gen: FactGenerator, v: Variant, f: Function, funcref: string)
    requires gen.Valid()
    modifies gen
    ensures gen.Valid() && gen.ctx == old(gen.ctx)
    ensures gen.St() == FunctionNaming(gen.host, old(gen.St()), v, f, funcref)
  {
    if !f.conv.C? {
      gen.WriteFact(FnPred(v, "calling_conv"), [funcref, ConvText(gen.host, f.conv)]);
    }
    gen.WriteFact(FnPred(v, "name"), [funcref, "@" + f.self.name]);
    if f.globalUnnamedAddr {
      gen.WriteFact(FnPred(v, "unnamed_addr"), [funcref]);
    }
  }

  method WriteFunctionAttributes(gen: FactGenerator, f: Function, funcref: string)
    requires gen.Valid()
    modifies gen
    ensures gen.Valid() && gen.ctx == old(gen.ctx)
    ensures gen.St() == FunctionAttributes(old(gen.St()), f, funcref)
  {
    if HasReturnAttrs(f.attributes) {
      gen.WriteFact("function::ret_attr", [funcref, f.attributes.returnText]);
    }
    WriteFnAttributes(gen, "function", funcref, f.attributes);
  }

  /** The parameter loop with its running index. */
  method WriteParams(gen: FactGenerator, v: Variant, args: seq<Value>, funcref: string)
    requires gen.Valid()
    modifies gen, gen.ctx
    ensures gen.Valid() && gen.ctx == old(gen.ctx)
    ensures gen.St() == Params(gen.graph, old(gen.St()), v, args, funcref, |args|)
  {
    var index := 0;
    while index < |args|
      invariant index <= |args|
      invariant gen.Valid() && gen.ctx == old(gen.ctx)
      invariant gen.St() == Params(gen.graph, old(gen.St()), v, args, funcref, index)
    {
      WriteParam(gen, v, args[index], funcref, index);
      index := index + 1;
    }
  }

  method WriteParam(gen: FactGenerator, v: Variant, arg: Value, funcref: string, index: nat)
    requires gen.Valid()
    modifies gen, gen.ctx
    ensures gen.Valid() && gen.ctx == old(gen.ctx)
    ensures gen.St() == ParamStep(gen.graph, old(gen.St()), v, arg, funcref, index)
  {
    var varId := gen.ValueRefmode(arg);
    gen.InsertResult(varId, arg.id);
    gen.WriteFact(FnPred(v, "param"), [funcref, NatToString(index), varId]);
    gen.RecordVariable(varId, arg.ty);
  }
}
