// writeGlobalAlias and writeGlobalVar: the facts of a module's aliases and
// global variables. Both run in the module's root frame; the constants they
// write (an aliasee, an initializer) take slots of the root's counter.
module Globals {
  import opened Common
  import opened LlvmEnums
  import opened Llvm
  import opened Contexts
  import opened Refmodes
  import opened Generator
  import opened Constants
  import opened Demangler

  // ---------------------------------------------------------------------
  // Aliases
  // ---------------------------------------------------------------------

  /** writeGlobalAlias up to the type fact: id and "@"-name, the type
      recorded, visibility and linkage when their names are non-empty, and
      the type. */
  function AliasHeadSt(g: TypeGraph, s: GenState, a: Alias, aliasId: string): GenState {
    var name := "@" + a.self.name;
    var s := Emit(s, "alias::id", [aliasId]);
    var s := Emit(s, "alias::name", [aliasId, name]);
    var visibility := VisibilityName(a.visibility);
    var linkage := LinkageName(a.linkage);
    var (aliasType, s) := RecordTy(g, s, a.self.ty);
    var s := if |visibility| > 0 then Emit(s, "alias::visibility", [aliasId, visibility]) else s;
    var s := if |linkage| > 0 then Emit(s, "alias::linkage", [aliasId, linkage]) else s;
    Emit(s, "alias::type", [aliasId, aliasType])
  }

  /** writeGlobalAlias: the head, then the aliasee constant and its link
      when there is one. */
  function WriteGlobalAlias(g: TypeGraph, h: Host, s: GenState, a: Alias, aliasId: string): GenState {
    var s := AliasHeadSt(g, s, a, aliasId);
    match a.aliasee
    case None => s
    case Some(c) =>
      var (aliasee, s) := WriteConstant(g, h, s, c);
      Emit(s, "alias::aliasee", [aliasId, aliasee])
  }

  /** The alias facts before the aliasee. Visibility and linkage names are
      never empty, so both guarded facts are always among them. */
  function AliasHead(g: TypeGraph, a: Alias, aliasId: string): seq<Fact> {
    [Fact("alias::id", [aliasId]),
     Fact("alias::name", [aliasId, "@" + a.self.name]),
     Fact("alias::visibility", [aliasId, VisibilityName(a.visibility)]),
     Fact("alias::linkage", [aliasId, LinkageName(a.linkage)]),
     Fact("alias::type", [aliasId, TypeRefmode(g, a.self.ty)])]
  }

  /** The head appends exactly the five head facts and records the type. */
  lemma AliasHeadShape(g: TypeGraph, s: GenState, a: Alias, aliasId: string)
    ensures AliasHeadSt(g, s, a, aliasId)
         == s.(facts := s.facts + AliasHead(g, a, aliasId), types := s.types + {a.self.ty})
  {
    var h := AliasHead(g, a, aliasId);
    assert s.facts + h == s.facts + [h[0]] + [h[1]] + [h[2]] + [h[3]] + [h[4]];
  }

  /** An alias without an aliasee writes just its head; one with an aliasee
      ends with the aliasee's constant facts and one link to the constant's
      fresh refmode, which carries the current slot. */
  lemma AliasFacts(g: TypeGraph, h: Host, s: GenState, a: Alias, aliasId: string)
    ensures var u := WriteGlobalAlias(g, h, s, a, aliasId);
      var mid := s.(facts := s.facts + AliasHead(g, a, aliasId), types := s.types + {a.self.ty});
      && (a.aliasee.None? ==> u == mid)
      && (a.aliasee.Some? ==> LinksConstant(mid, u, "alias::aliasee", aliasId, Written(a.aliasee.value)))
  {
    AliasHeadShape(g, s, a, aliasId);
    if a.aliasee.Some? {
      LinkedConstant(g, h, AliasHeadSt(g, s, a, aliasId), a.aliasee.value, "alias::aliasee", aliasId);
    }
  }

  /** writeGlobalAlias on the generator object. */
  method WriteGlobalAliasM(gen: FactGenerator, a: Alias, aliasId: string)
    requires gen.Valid()
    modifies gen, gen.ctx
    ensures gen.Valid() && gen.ctx == old(gen.ctx)
    ensures gen.St() == WriteGlobalAlias(gen.graph, gen.host, old(gen.St()), a, aliasId)
  {
    var name := "@" + a.self.name;
    gen.WriteFact("alias::id", [aliasId]);
    gen.WriteFact("alias::name", [aliasId, name]);
    var visibility := VisibilityName(a.visibility);
    var linkage := LinkageName(a.linkage);
    var aliasType := gen.RecordType(a.self.ty);
    if |visibility| > 0 {
      gen.WriteFact("alias::visibility", [aliasId, visibility]);
    }
    if |linkage| > 0 {
      gen.WriteFact("alias::linkage", [aliasId, linkage]);
    }
    gen.WriteFact("alias::type", [aliasId, aliasType]);
    assert gen.St() == AliasHeadSt(gen.graph, old(gen.St()), a, aliasId);
    if a.aliasee.Some? {
      var aliasee := WriteConstantM(gen, a.aliasee.value);
      gen.WriteFact("alias::aliasee", [aliasId, aliasee]);
    }
  }

  // ---------------------------------------------------------------------
  // Global variables
  // ---------------------------------------------------------------------

  /** writeGlobalVar's opening: id and "@"-name, the result-map entry, the
      type recorded twice (as the global's pointer type and as the
      variable's type, the same type on current LLVM) and the demangled
      name. Returns the variable type's refmode. */
  function GlobalVarIdentity(g: TypeGraph, h: Host, s: GenState, gv: GlobalVar, id: string): (string, GenState) {
    var name := "@" + gv.self.name;
    var s := Emit(s, "global_var::id", [id]);
    var s := Emit(s, "global_var::name", [id, name]);
    var s := AddResult(s, id, gv.self.id);
    var (_, s) := RecordTy(g, s, gv.self.ty);
    var (varType, s) := RecordTy(g, s, gv.self.ty);
    var s := Emit(s, "global_var::demangled_name", [id, Demangle(h, gv.self.name)]);
    (varType, s)
  }

  /** The linkage part: an extra "external" linkage for an uninitialised
      external global, then linkage, visibility and thread-local mode when
      their names are non-empty. */
  function GlobalVarLinkage(s: GenState, gv: GlobalVar, id: string): GenState {
    var visibility := VisibilityName(gv.visibility);
    var linkage := LinkageName(gv.linkage);
    var thrLocMode := ThreadLocalModeName(gv.threadLocal);
    var s := if gv.initializer.None? && gv.linkage == External
             then Emit(s, "global_var::linkage", [id, "external"]) else s;
    var s := if |linkage| > 0 then Emit(s, "global_var::linkage", [id, linkage]) else s;
    var s := if |visibility| > 0 then Emit(s, "global_var::visibility", [id, visibility]) else s;
    if |thrLocMode| > 0 then Emit(s, "global_var::threadlocal_mode", [id, thrLocMode]) else s
  }

  /** The flags and the type: "externally_initialized" when so, one of
      "constant" and "global", then the type. */
  function GlobalVarFlags(s: GenState, gv: GlobalVar, id: string, varType: string): GenState {
    var s := if gv.externallyInitialized then Emit(s, "global_var::flag", [id, "externally_initialized"]) else s;
    var flag := if gv.isConstant then "constant" else "global";
    var s := Emit(s, "global_var::flag", [id, flag]);
    Emit(s, "global_var::type", [id, varType])
  }

  /** writeGlobalVar up to the type fact. */
  function GlobalVarHead(g: TypeGraph, h: Host, s: GenState, gv: GlobalVar, id: string): GenState {
    var (varType, s) := GlobalVarIdentity(g, h, s, gv, id);
    GlobalVarFlags(GlobalVarLinkage(s, gv, id), gv, id, varType)
  }

  /** writeGlobalVar: the head, then the initializer constant and its link
      when present, the section when present, the alignment when non-zero. */
  function WriteGlobalVar(g: TypeGraph, h: Host, s: GenState, gv: GlobalVar, id: string): GenState {
    var s := GlobalVarHead(g, h, s, gv, id);
    var s := match gv.initializer
      case None => s
      case Some(c) =>
        var (initRef, s) := WriteConstant(g, h, s, c);
        Emit(s, "global_var::initializer", [id, initRef]);
    GlobalVarTrailer(s, gv, id)
  }

  /** The section when present, the alignment when non-zero. */
  function GlobalVarTrailer(s: GenState, gv: GlobalVar, id: string): GenState {
    var s := match gv.section
      case None => s
      case Some(sec) => Emit(s, "global_var::section", [id, sec]);
    if gv.alignment != 0 then Emit(s, "global_var::aligned_to", [id, NatToString(gv.alignment)]) else s
  }

  function IdentityFacts(h: Host, gv: GlobalVar, id: string): seq<Fact> {
    [Fact("global_var::id", [id]),
     Fact("global_var::name", [id, "@" + gv.self.name]),
     Fact("global_var::demangled_name", [id, Demangle(h, gv.self.name)])]
  }

  function LinkageFacts(gv: GlobalVar, id: string): seq<Fact> {
    When(gv.initializer.None? && gv.linkage == External, Fact("global_var::linkage", [id, "external"]))
    + [Fact("global_var::linkage", [id, LinkageName(gv.linkage)]),
       Fact("global_var::visibility", [id, VisibilityName(gv.visibility)])]
    + When(gv.threadLocal != NotThreadLocal,
           Fact("global_var::threadlocal_mode", [id, ThreadLocalModeName(gv.threadLocal)]))
  }

  function FlagFacts(gv: GlobalVar, id: string, varType: string): seq<Fact> {
    When(gv.externallyInitialized, Fact("global_var::flag", [id, "externally_initialized"]))
    + [Fact("global_var::flag", [id, if gv.isConstant then "constant" else "global"]),
       Fact("global_var::type", [id, varType])]
  }

  function TrailerFacts(gv: GlobalVar, id: string): seq<Fact> {
    When(gv.section.Some?, Fact("global_var::section", [id, if gv.section.Some? then gv.section.value else ""]))
    + When(gv.alignment != 0, Fact("global_var::aligned_to", [id, NatToString(gv.alignment)]))
  }

  /** The facts of the head, in order. */
  function GlobalVarHeadFacts(g: TypeGraph, h: Host, gv: GlobalVar, id: string): seq<Fact> {
    IdentityFacts(h, gv, id) + LinkageFacts(gv, id) + FlagFacts(gv, id, TypeRefmode(g, gv.self.ty))
  }

  lemma IdentityShape(g: TypeGraph, h: Host, s: GenState, gv: GlobalVar, id: string)
    ensures var (t, u) := GlobalVarIdentity(g, h, s, gv, id);
      && t == TypeRefmode(g, gv.self.ty)
      && u == AddResult(s, id, gv.self.id).(facts := s.facts + IdentityFacts(h, gv, id), types := s.types + {gv.self.ty})
  {
    var f := IdentityFacts(h, gv, id);
    assert s.facts + f == s.facts + [f[0]] + [f[1]] + [f[2]];
  }

  lemma LinkageShape(s: GenState, gv: GlobalVar, id: string)
    ensures GlobalVarLinkage(s, gv, id) == s.(facts := s.facts + LinkageFacts(gv, id))
  {
    var ext := When(gv.initializer.None? && gv.linkage == External, Fact("global_var::linkage", [id, "external"]));
    var lv := [Fact("global_var::linkage", [id, LinkageName(gv.linkage)]),
               Fact("global_var::visibility", [id, VisibilityName(gv.visibility)])];
    var tl := When(gv.threadLocal != NotThreadLocal,
                   Fact("global_var::threadlocal_mode", [id, ThreadLocalModeName(gv.threadLocal)]));
    var s1 := s.(facts := s.facts + ext);
    assert GlobalVarLinkage(s, gv, id) == (
      var s2 := Emit(Emit(s1, "global_var::linkage", [id, LinkageName(gv.linkage)]),
                     "global_var::visibility", [id, VisibilityName(gv.visibility)]);
      if gv.threadLocal != NotThreadLocal then Emit(s2, "global_var::threadlocal_mode", [id, ThreadLocalModeName(gv.threadLocal)]) else s2);
    assert s.facts + LinkageFacts(gv, id) == s.facts + ext + [lv[0]] + [lv[1]] + tl;
  }

  lemma FlagsShape(s: GenState, gv: GlobalVar, id: string, varType: string)
    ensures GlobalVarFlags(s, gv, id, varType) == s.(facts := s.facts + FlagFacts(gv, id, varType))
  {
    var ei := When(gv.externallyInitialized, Fact("global_var::flag", [id, "externally_initialized"]));
    var f := FlagFacts(gv, id, varType);
    assert s.facts + f == s.facts + ei + [f[|ei|]] + [f[|ei| + 1]];
  }

  lemma TrailerShape(s: GenState, gv: GlobalVar, id: string)
    ensures GlobalVarTrailer(s, gv, id) == s.(facts := s.facts + TrailerFacts(gv, id))
  {
    var sec := When(gv.section.Some?, Fact("global_var::section", [id, if gv.section.Some? then gv.section.value else ""]));
    var al := When(gv.alignment != 0, Fact("global_var::aligned_to", [id, NatToString(gv.alignment)]));
    assert s.facts + TrailerFacts(gv, id) == s.facts + sec + al;
  }

  /** The head appends exactly its listed facts (the thread-local fact only
      for a thread-local global), records the type, maps the id to the
      global and takes no constant slot. */
  lemma GlobalVarHeadShape(g: TypeGraph, h: Host, s: GenState, gv: GlobalVar, id: string)
    ensures GlobalVarHead(g, h, s, gv, id)
         == AddResult(s, id, gv.self.id).(facts := s.facts + GlobalVarHeadFacts(g, h, gv, id), types := s.types + {gv.self.ty})
  {
    IdentityShape(g, h, s, gv, id);
    var r := AddResult(s, id, gv.self.id).(types := s.types + {gv.self.ty});
    var (t, s1) := GlobalVarIdentity(g, h, s, gv, id);
    assert s1 == r.(facts := r.facts + IdentityFacts(h, gv, id));
    LinkageShape(s1, gv, id);
    var s2 := GlobalVarLinkage(s1, gv, id);
    FlagsShape(s2, gv, id, t);
    AppendThree(r, IdentityFacts(h, gv, id), LinkageFacts(gv, id), FlagFacts(gv, id, t));
  }

  /** Facts under other predicates do not count towards a flag. */
  lemma NoFlags(fs: seq<Fact>, pred: string, cols: seq<string>)
    requires forall k :: 0 <= k < |fs| ==> fs[k].pred != pred
    ensures multiset(fs)[Fact(pred, cols)] == 0
  {
    assert Fact(pred, cols) !in fs;
  }

  lemma IdentityNoFlags(h: Host, gv: GlobalVar, id: string)
    ensures forall k :: 0 <= k < |IdentityFacts(h, gv, id)| ==> IdentityFacts(h, gv, id)[k].pred != "global_var::flag"
  {
    assert "global_var::name"[12] != "global_var::flag"[12];
  }

  lemma LinkageNoFlags(gv: GlobalVar, id: string)
    ensures forall k :: 0 <= k < |LinkageFacts(gv, id)| ==> LinkageFacts(gv, id)[k].pred != "global_var::flag"
  {
  }

  lemma FlagCounts(gv: GlobalVar, id: string, t: string)
    ensures var m := multiset(FlagFacts(gv, id, t));
      && m[Fact("global_var::flag", [id, "constant"])] == (if gv.isConstant then 1 else 0)
      && m[Fact("global_var::flag", [id, "global"])] == (if gv.isConstant then 0 else 1)
  {
    assert "externally_initialized" != "constant" && "externally_initialized" != "global";
  }

  /** Exactly one of the flags "constant" and "global" is written, the one
      matching the global's constness. */
  lemma GlobalVarOneConstnessFlag(g: TypeGraph, h: Host, gv: GlobalVar, id: string)
    ensures var m := multiset(GlobalVarHeadFacts(g, h, gv, id));
      && m[Fact("global_var::flag", [id, "constant"])] == (if gv.isConstant then 1 else 0)
      && m[Fact("global_var::flag", [id, "global"])] == (if gv.isConstant then 0 else 1)
  {
    var i, l, f := IdentityFacts(h, gv, id), LinkageFacts(gv, id), FlagFacts(gv, id, TypeRefmode(g, gv.self.ty));
    IdentityNoFlags(h, gv, id);
    LinkageNoFlags(gv, id);
    NoFlags(i, "global_var::flag", [id, "constant"]);
    NoFlags(i, "global_var::flag", [id, "global"]);
    NoFlags(l, "global_var::flag", [id, "constant"]);
    NoFlags(l, "global_var::flag", [id, "global"]);
    FlagCounts(gv, id, TypeRefmode(g, gv.self.ty));
    assert multiset(i + l + f) == multiset(i) + multiset(l) + multiset(f);
  }

  /** An uninitialised external global gets the "external" linkage fact
      twice: once from the explicit test and once as its linkage name. */
  lemma UninitialisedExternalLinkedTwice(g: TypeGraph, h: Host, gv: GlobalVar, id: string)
    requires gv.initializer.None? && gv.linkage == External
    ensures multiset(GlobalVarHeadFacts(g, h, gv, id))[Fact("global_var::linkage", [id, "external"])] == 2
  {
    var i, l, f := IdentityFacts(h, gv, id), LinkageFacts(gv, id), FlagFacts(gv, id, TypeRefmode(g, gv.self.ty));
    var e := Fact("global_var::linkage", [id, "external"]);
    IdentityNoLinkage(h, gv, id);
    NoFlags(i, "global_var::linkage", [id, "external"]);
    NoFlags(f, "global_var::linkage", [id, "external"]);
    ExternalTwiceInLinkage(gv, id);
    assert GlobalVarHeadFacts(g, h, gv, id) == i + l + f;
    assert multiset(i + l + f) == multiset(i) + multiset(l) + multiset(f);
  }

  lemma IdentityNoLinkage(h: Host, gv: GlobalVar, id: string)
    ensures forall k :: 0 <= k < |IdentityFacts(h, gv, id)| ==> IdentityFacts(h, gv, id)[k].pred != "global_var::linkage"
  {
    assert "global_var::name"[12] != "global_var::linkage"[12];
  }

  lemma ExternalTwiceInLinkage(gv: GlobalVar, id: string)
    requires gv.initializer.None? && gv.linkage == External
    ensures multiset(LinkageFacts(gv, id))[Fact("global_var::linkage", [id, "external"])] == 2
  {
    var e := Fact("global_var::linkage", [id, "external"]);
    var vis := Fact("global_var::visibility", [id, VisibilityName(gv.visibility)]);
    var t := When(gv.threadLocal != NotThreadLocal,
                  Fact("global_var::threadlocal_mode", [id, ThreadLocalModeName(gv.threadLocal)]));
    assert LinkageFacts(gv, id) == [e, e, vis] + t;
    assert "global_var::visibility"[12] != "global_var::linkage"[12];
    assert "global_var::threadlocal_mode"[12] != "global_var::linkage"[12];
    NoFlags(t, "global_var::linkage", [id, "external"]);
    assert multiset([e, e, vis] + t) == multiset([e, e, vis]) + multiset(t);
  }

  /** After the head: when there is an initializer, its constant facts and
      then one link to its fresh refmode; then the section and the alignment
      only when present and non-zero. Nothing after the head touches the
      variable cache. */
  lemma GlobalVarTail(g: TypeGraph, h: Host, s: GenState, gv: GlobalVar, id: string)
    ensures var mid := GlobalVarHead(g, h, s, gv, id);
      var u := WriteGlobalVar(g, h, s, gv, id);
      var tail := TrailerFacts(gv, id);
      && |tail| <= |u.facts| && u.facts[|u.facts| - |tail|..] == tail
      && u.vars == s.vars
      && (gv.initializer.None? ==> u == mid.(facts := mid.facts + tail))
      && (gv.initializer.Some? ==>
            var w := u.(facts := u.facts[..|u.facts| - |tail|]);
            LinksConstant(mid, w, "global_var::initializer", id, Written(gv.initializer.value)))
  {
    var mid := GlobalVarHead(g, h, s, gv, id);
    GlobalVarHeadShape(g, h, s, gv, id);
    var w := match gv.initializer
      case None => mid
      case Some(c) =>
        var (initRef, s) := WriteConstant(g, h, mid, c);
        Emit(s, "global_var::initializer", [id, initRef]);
    if gv.initializer.Some? {
      LinkedConstant(g, h, mid, gv.initializer.value, "global_var::initializer", id);
    }
    TrailerShape(w, gv, id);
    var u := WriteGlobalVar(g, h, s, gv, id);
    assert u.facts[..|u.facts| - |TrailerFacts(gv, id)|] == w.facts;
    assert u.(facts := w.facts) == w;
  }

  /** writeGlobalVar on the generator object. */
  method WriteGlobalVarM(gen: FactGenerator, gv: GlobalVar, id: string)
    requires gen.Valid()
    modifies gen, gen.ctx
    ensures gen.Valid() && gen.ctx == old(gen.ctx)
    ensures gen.St() == WriteGlobalVar(gen.graph, gen.host, old(gen.St()), gv, id)
  {
    var varType := WriteGlobalVarIdentity(gen, gv, id);
    WriteGlobalVarLinkage(gen, gv, id);
    WriteGlobalVarFlags(gen, gv, id, varType);
    if gv.initializer.Some? {
      var initRef := WriteConstantM(gen, gv.initializer.value);
      gen.WriteFact("global_var::initializer", [id, initRef]);
    }
    WriteGlobalVarTrailer(gen, gv, id);
  }

  method WriteGlobalVarIdentity(gen: FactGenerator, gv: GlobalVar, id: string) returns (varType: string)
    requires gen.Valid()
    modifies gen
    ensures gen.Valid() && gen.ctx == old(gen.ctx)
    ensures (varType, gen.St()) == GlobalVarIdentity(gen.graph, gen.host, old(gen.St()), gv, id)
  {
    var name := "@" + gv.self.name;
    gen.WriteFact("global_var::id", [id]);
    gen.WriteFact("global_var::name", [id, name]);
    gen.InsertResult(id, gv.self.id);
    var _ := gen.RecordType(gv.self.ty);
    varType := gen.RecordType(gv.self.ty);
    gen.WriteFact("global_var::demangled_name", [id, Demangle(gen.host, gv.self.name)]);
  }

  method WriteGlobalVarLinkage(gen: FactGenerator, gv: GlobalVar, id: string)
    requires gen.Valid()
    modifies gen
    ensures gen.Valid() && gen.ctx == old(gen.ctx)
    ensures gen.St() == GlobalVarLinkage(old(gen.St()), gv, id)
  {
    var visibility := VisibilityName(gv.visibility);
    var linkage := LinkageName(gv.linkage);
    var thrLocMode := ThreadLocalModeName(gv.threadLocal);
    if gv.initializer.None? && gv.linkage == External {
      gen.WriteFact("global_var::linkage", [id, "external"]);
    }
    if |linkage| > 0 {
      gen.WriteFact("global_var::linkage", [id, linkage]);
    }
    if |visibility| > 0 {
      gen.WriteFact("global_var::visibility", [id, visibility]);
    }
    if |thrLocMode| > 0 {
      gen.WriteFact("global_var::threadlocal_mode", [id, thrLocMode]);
    }
  }

  method WriteGlobalVarFlags(gen: FactGenerator, gv: GlobalVar, id: string, varType: string)
    requires gen.Valid()
    modifies gen
    ensures gen.Valid() && gen.ctx == old(gen.ctx)
    ensures gen.St() == GlobalVarFlags(old(gen.St()), gv, id, varType)
  {
    if gv.externallyInitialized {
      gen.WriteFact("global_var::flag", [id, "externally_initialized"]);
    }
    var flag := if gv.isConstant then "constant" else "global";
    gen.WriteFact("global_var::flag", [id, flag]);
    gen.WriteFact("global_var::type", [id, varType]);
  }

  method WriteGlobalVarTrailer(gen: FactGenerator, gv: GlobalVar, id: string)
    requires gen.Valid()
    modifies gen
    ensures gen.Valid() && gen.ctx == old(gen.ctx)
    ensures gen.St() == GlobalVarTrailer(old(gen.St()), gv, id)
  {
    if gv.section.Some? {
      gen.WriteFact("global_var::section", [id, gv.section.value]);
    }
    if gv.alignment != 0 {
      gen.WriteFact("global_var::aligned_to", [id, NatToString(gv.alignment)]);
    }
  }
}
