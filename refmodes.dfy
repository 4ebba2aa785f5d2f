// Refmodes: the textual ids of IR entities, built from the prefixes of the
// context frames. All functions here are pure; the ones that consult the
// slot counter or the lazily computed numbering return the updated context
// state next to the string.
module Refmodes {
  import opened Common
  import opened Llvm
  import opened Contexts
  import opened Numbering

  // ---------------------------------------------------------------------
  // Trimming (boost::algorithm::trim with the classic locale)
  // ---------------------------------------------------------------------

  function TrimLeft(s: string): (r: string)
    ensures |r| <= |s| && r == s[|s| - |r|..]
    ensures |r| > 0 ==> !IsSpace(r[0])
    ensures forall i :: 0 <= i < |s| - |r| ==> IsSpace(s[i])
  {
    if |s| > 0 && IsSpace(s[0]) then TrimLeft(s[1..]) else s
  }

  function TrimRight(s: string): (r: string)
    ensures |r| <= |s| && r == s[..|r|]
    ensures |r| > 0 ==> !IsSpace(r[|r| - 1])
    ensures forall i :: |r| <= i < |s| ==> IsSpace(s[i])
  {
    if |s| > 0 && IsSpace(s[|s| - 1]) then TrimRight(s[..|s| - 1]) else s
  }

  /** The text without leading and trailing whitespace. */
  function Trim(s: string): string { TrimRight(TrimLeft(s)) }

  /** A text that neither starts nor ends with whitespace is left alone, and
      trimming twice is trimming once. */
  lemma TrimFacts(s: string)
    ensures (|s| == 0 || (!IsSpace(s[0]) && !IsSpace(s[|s| - 1]))) ==> Trim(s) == s
    ensures Trim(Trim(s)) == Trim(s)
    ensures |Trim(s)| > 0 ==> !IsSpace(Trim(s)[0]) && !IsSpace(Trim(s)[|Trim(s)| - 1])
  {
    var l := TrimLeft(s);
    var r := TrimRight(l);
    if |r| > 0 {
      assert r[0] == l[0];
    }
  }

  // ---------------------------------------------------------------------
  // Qualified prefixes
  // ---------------------------------------------------------------------

  /** The IR class a refmode is qualified by (the template argument T). */
  datatype Target = FunctionT | InstructionT | BlockT

  predicate IsA(a: Anchor, t: Target) {
    match t
    case FunctionT => a.FunctionA?
    case InstructionT => a.InstrA?
    case BlockT => a.BlockA?
  }

  /** Block frames are left out unless blocks are the target. */
  predicate Skipped(fr: Frame, t: Target) {
    fr.anchor.Some? && fr.anchor.value.BlockA? && !IsA(fr.anchor.value, t)
  }

  /** The scan stops right after a frame anchored by the target. */
  predicate Stops(fr: Frame, t: Target) {
    fr.anchor.Some? && IsA(fr.anchor.value, t)
  }

  /** withContext<T>: `prefix:` of each frame from the root upwards, skipping
      block frames unless T is BasicBlock, up to and including the first
      frame anchored by a T. */
  function WithContext(frames: seq<Frame>, t: Target): string {
    if |frames| == 0 then ""
    else if Skipped(frames[0], t) then WithContext(frames[1..], t)
    else if Stops(frames[0], t) then frames[0].prefix + ":"
    else frames[0].prefix + ":" + WithContext(frames[1..], t)
  }

  /** `prefix:` of every frame that is not skipped, without stopping. */
  function AllPrefixes(frames: seq<Frame>, t: Target): string {
    if |frames| == 0 then ""
    else (if Skipped(frames[0], t) then "" else frames[0].prefix + ":") + AllPrefixes(frames[1..], t)
  }

  /** With no frame anchored by the target, every non-skipped prefix is
      written. */
  lemma {:induction false} WithContextNoAnchor(frames: seq<Frame>, t: Target)
    requires forall i :: 0 <= i < |frames| ==> !Stops(frames[i], t)
    ensures WithContext(frames, t) == AllPrefixes(frames, t)
  {
    if |frames| > 0 {
      WithContextNoAnchor(frames[1..], t);
    }
  }

  /** With a first frame `k` anchored by the target, the prefixes of the
      frames up to `k` are written and nothing after it. */
  lemma {:induction false} WithContextStops(frames: seq<Frame>, t: Target, k: nat)
    requires k < |frames| && Stops(frames[k], t)
    requires forall i :: 0 <= i < k ==> !Stops(frames[i], t)
    ensures WithContext(frames, t) == AllPrefixes(frames[..k + 1], t)
  {
    if k == 0 {
      assert frames[..1][1..] == [];
    } else {
      WithContextStops(frames[1..], t, k - 1);
      assert frames[1..][..k] == frames[..k + 1][1..];
    }
  }

  /** withGlobalContext: the root prefix only. */
  function WithGlobalContext(s: CtxState): string
    requires WellFormed(s)
  {
    s.contexts[0].prefix + ":"
  }

  /** Two states have the same frames when only frame numberings and the
      constant counter differ. */
  predicate SameFrames(s: CtxState, u: CtxState) {
    && |s.contexts| == |u.contexts|
    && (forall i :: 0 <= i < |s.contexts| ==>
          s.contexts[i].anchor == u.contexts[i].anchor && s.contexts[i].prefix == u.contexts[i].prefix)
    && s.iFunctionCtx == u.iFunctionCtx
    && s.instrIndex == u.instrIndex
  }

  /** Two states have the same shape when only frame numberings differ. */
  predicate SameShape(s: CtxState, u: CtxState) {
    SameFrames(s, u) && s.constantIndex == u.constantIndex
  }

  /** Qualified prefixes depend on the frames' anchors and prefixes only. */
  lemma {:induction false} WithContextShape(a: seq<Frame>, b: seq<Frame>, t: Target)
    requires |a| == |b|
    requires forall i :: 0 <= i < |a| ==> a[i].anchor == b[i].anchor && a[i].prefix == b[i].prefix
    ensures WithContext(a, t) == WithContext(b, t)
  {
    if |a| > 0 {
      WithContextShape(a[1..], b[1..], t);
    }
  }

  // ---------------------------------------------------------------------
  // refmodeOf
  // ---------------------------------------------------------------------

  /** Type refmodes: a literal struct prints itself, a named struct is
      "%name", an unnamed identified struct embeds its object address, and
      every other type prints itself. No frame is consulted. */
  function TypeRefmode(g: TypeGraph, t: TypeId): string {
    var n := Ty(g, t);
    if n.kind.StructTy? then
      if n.kind.literal then n.printed
      else if |n.kind.name| > 0 then "%" + n.kind.name
      else "%\"type " + n.address + "\""
    else n.printed
  }

  /** The top-most function frame. */
  function InnermostFunction(frames: seq<Frame>): (r: Option<nat>)
    ensures r.Some? ==> r.value < |frames| && frames[r.value].IsFunction()
                        && forall j :: r.value < j < |frames| ==> !frames[j].IsFunction()
    ensures r.None? ==> forall j :: 0 <= j < |frames| ==> !frames[j].IsFunction()
  {
    if |frames| == 0 then None
    else if frames[|frames| - 1].IsFunction() then Some(|frames| - 1)
    else InnermostFunction(frames[..|frames| - 1])
  }

  /** The text of a value as an operand, before qualification. A named value
      is '@name' (global values) or '%name'; constants and void values print
      themselves; metadata wrappers render their metadata; any other value
      takes its slot '%N' from the innermost function frame, whose numbering
      is computed when still empty and where a value without a slot is
      entered with 0. Outside any function the value prints itself. The
      text is trimmed; only frame numberings change. */
  function RefmodeOf(g: TypeGraph, s: CtxState, v: Value): (r: (string, CtxState))
    ensures SameShape(s, r.1)
    decreases v
  {
    if HasName(v) then
      (Trim([if IsGlobalValue(v) then '@' else '%'] + v.name), s)
    else if IsConstant(v) then (Trim(v.printed), s)
    else if IsVoid(g, v.ty) then (Trim(v.printed), s)
    else if v.kind.MetadataV? then
      match v.kind.md
      case LocalMd(inner) =>
        var (t, s1) := RefmodeOf(g, s, inner);
        (Trim(TypeRefmode(g, inner.ty) + " " + t), s1)
      case _ => (Trim(v.kind.md.text), s)
    else SlotRefmode(g, s, v)
  }

  /** An unnamed local value: its slot in the innermost function frame. */
  function SlotRefmode(g: TypeGraph, s: CtxState, v: Value): (r: (string, CtxState))
    ensures SameShape(s, r.1)
  {
    match InnermostFunction(s.contexts)
    case None => (Trim(v.printed), s)
    case Some(k) =>
      var fr := s.contexts[k];
      var computed := if |fr.numbering| == 0 then NumberingOf(g, fr.anchor.value.f) else fr.numbering;
      var numbering := if v.id in computed then computed else computed[v.id := 0];
      NumberingUpdateShape(s, k, numbering);
      (Trim("%" + NatToString(numbering[v.id])),
       s.(contexts := s.contexts[k := fr.(numbering := numbering)]))
  }

  /** Replacing one frame's numbering changes only numberings. */
  lemma NumberingUpdateShape(s: CtxState, k: nat, numbering: map<ValueId, nat>)
    requires k < |s.contexts|
    ensures SameShape(s, s.(contexts := s.contexts[k := s.contexts[k].(numbering := numbering)]))
  {
  }

  /** A slot text has no surrounding whitespace. */
  lemma SlotTextTrimmed(n: nat)
    ensures Trim("%" + NatToString(n)) == "%" + NatToString(n)
  {
    var d := NatToString(n);
    var t := "%" + d;
    assert t[|t| - 1] == d[|d| - 1];
    assert IsDigit(d[|d| - 1]);
    TrimFacts(t);
  }

  /** A named value is spelled with its sigil and name. */
  lemma NamedRefmode(g: TypeGraph, s: CtxState, v: Value)
    requires HasName(v) && !IsSpace(v.name[|v.name| - 1])
    ensures RefmodeOf(g, s, v).0 == [if IsGlobalValue(v) then '@' else '%'] + v.name
    ensures RefmodeOf(g, s, v).1 == s
  {
    var c := if IsGlobalValue(v) then '@' else '%';
    SigilTrimmed(c, v.name);
    assert RefmodeOf(g, s, v) == (Trim([c] + v.name), s);
  }

  lemma SigilTrimmed(c: char, name: string)
    requires c == '@' || c == '%'
    requires |name| > 0 && !IsSpace(name[|name| - 1])
    ensures Trim([c] + name) == [c] + name
  {
    var t := [c] + name;
    assert t[|t| - 1] == name[|name| - 1];
    TrimFacts(t);
  }

  /** An unnamed local value inside a function whose frame has no numbering
      yet gets the slot computeNumbering assigns it, and the frame keeps that
      numbering for later lookups. */
  lemma UnnamedLocalRefmode(g: TypeGraph, s: CtxState, v: Value, k: nat)
    requires !HasName(v) && !IsConstant(v) && !IsVoid(g, v.ty) && !v.kind.MetadataV?
    requires InnermostFunction(s.contexts) == Some(k)
    requires |s.contexts[k].numbering| == 0
    requires v.id in NumberingOf(g, s.contexts[k].anchor.value.f)
    ensures RefmodeOf(g, s, v).0 == "%" + NatToString(NumberingOf(g, s.contexts[k].anchor.value.f)[v.id])
    ensures RefmodeOf(g, s, v).1.contexts[k].numbering == NumberingOf(g, s.contexts[k].anchor.value.f)
  {
    var n := NumberingOf(g, s.contexts[k].anchor.value.f)[v.id];
    SlotTextTrimmed(n);
    assert RefmodeOf(g, s, v) == SlotRefmode(g, s, v);
  }

  /** Once a frame has a numbering, later lookups read it and do not
      recompute it; a value it already numbers leaves the state unchanged. */
  lemma NumberedLocalRefmode(g: TypeGraph, s: CtxState, v: Value, k: nat)
    requires !HasName(v) && !IsConstant(v) && !IsVoid(g, v.ty) && !v.kind.MetadataV?
    requires InnermostFunction(s.contexts) == Some(k)
    requires v.id in s.contexts[k].numbering
    ensures RefmodeOf(g, s, v).0 == "%" + NatToString(s.contexts[k].numbering[v.id])
    ensures RefmodeOf(g, s, v).1 == s
  {
    var fr := s.contexts[k];
    SlotTextTrimmed(fr.numbering[v.id]);
    assert RefmodeOf(g, s, v) == SlotRefmode(g, s, v);
    assert |fr.numbering| != 0;
    assert fr.(numbering := fr.numbering) == fr;
    assert s.contexts[k := fr] == s.contexts;
  }

  // ---------------------------------------------------------------------
  // The refmode specialisations
  // ---------------------------------------------------------------------

  /** `instrCount() - 1` in unsigned arithmetic. */
  function PrevIndex(n: nat): nat {
    if n == 0 then 0xFFFF_FFFF else n - 1
  }

  /** Instructions: function-qualified, numbered by the current instruction
      frame's index. */
  function InstructionRefmode(s: CtxState): string {
    WithContext(s.contexts, FunctionT) + NatToString(PrevIndex(s.instrIndex))
  }

  /** Constants: instruction-qualified, then a fresh slot, ':' and the
      constant's own text. */
  function ConstantRefmode(g: TypeGraph, s: CtxState, c: Value): (r: (string, CtxState))
    ensures r.1.constantIndex == s.constantIndex + 1
  {
    var pre := WithContext(s.contexts, InstructionT);
    var (k, s1) := NextConstant(s);
    var (txt, s2) := RefmodeOf(g, s1, c);
    (pre + (NatToString(k) + ":" + txt), s2)
  }

  /** Blocks: function-qualified, "[basicblock]", then the block's text. */
  function BlockRefmode(g: TypeGraph, s: CtxState, b: Value): (r: (string, CtxState))
    ensures SameShape(s, r.1)
  {
    var (name, s1) := RefmodeOf(g, s, b);
    (WithContext(s1.contexts, FunctionT) + "[basicblock]" + name, s1)
  }

  /** Functions: the root prefix and the raw name, without '@'. */
  function FunctionRefmode(s: CtxState, f: Function): string
    requires WellFormed(s)
  {
    WithGlobalContext(s) + f.self.name
  }

  /** Inline assembly: instruction-qualified, the marker ":<asm>", no slot. */
  function AsmRefmode(s: CtxState): string {
    WithContext(s.contexts, InstructionT) + ":" + "<asm>"
  }

  /** Global values: the root prefix and refmodeOf ('@name'). */
  function GlobalValueRefmode(g: TypeGraph, s: CtxState, v: Value): (r: (string, CtxState))
    requires WellFormed(s)
    ensures SameShape(s, r.1)
  {
    var (id, s1) := RefmodeOf(g, s, v);
    (s.contexts[0].prefix + ":" + id, s1)
  }

  /** Any other value: blocks are routed to the block case, everything else
      is function-qualified refmodeOf. */
  function ValueRefmode(g: TypeGraph, s: CtxState, v: Value): (r: (string, CtxState))
    ensures SameShape(s, r.1)
  {
    if v.kind.BlockV? then BlockRefmode(g, s, v)
    else
      var (id, s1) := RefmodeOf(g, s, v);
      (WithContext(s1.contexts, FunctionT) + id, s1)
  }

  /** Metadata nodes (DINode and MDNode): the root prefix and the node's
      printed slot text. */
  function NodeRefmode(s: CtxState, printed: string): string
    requires WellFormed(s)
  {
    WithGlobalContext(s) + printed
  }

  // ---------------------------------------------------------------------
  // Properties
  // ---------------------------------------------------------------------

  /** Inside function f, block b and the instruction with index n, an
      instruction's refmode is "<root>:f:n" — the block is not part of it. */
  lemma InstructionRefmodeInBody(root: Frame, fr: Frame, bl: Frame, ins: Frame, n: nat)
    requires root.anchor.None?
    requires fr.anchor.Some? && fr.anchor.value.FunctionA?
    requires bl.anchor.Some? && bl.anchor.value.BlockA?
    ensures InstructionRefmode(CtxState([root, fr, bl, ins], None, n + 1, 0))
         == root.prefix + ":" + fr.prefix + ":" + NatToString(n)
  {
    var frames := [root, fr, bl, ins];
    assert frames[1..][1..] == [bl, ins];
    WithContextStops(frames, FunctionT, 1);
    assert frames[..2][1..][1..] == [];
  }

  /** Within one function, instructions with different indices have
      different refmodes. */
  lemma InstructionRefmodesDistinct(s: CtxState, u: CtxState)
    requires WithContext(s.contexts, FunctionT) == WithContext(u.contexts, FunctionT)
    requires s.instrIndex >= 1 && u.instrIndex >= 1 && s.instrIndex != u.instrIndex
    ensures InstructionRefmode(s) != InstructionRefmode(u)
  {
    var p := WithContext(s.contexts, FunctionT);
    var x, y := NatToString(s.instrIndex - 1), NatToString(u.instrIndex - 1);
    if p + x == p + y {
      PrefixCancel(p, x, y);
      NatToStringInjective(s.instrIndex - 1, u.instrIndex - 1);
    }
  }

  lemma PrefixCancel(p: string, x: string, y: string)
    requires p + x == p + y
    ensures x == y
  {
    assert x == (p + x)[|p|..];
    assert y == (p + y)[|p|..];
  }

  /** A constant's refmode in parts: the instruction-qualified prefix, the
      current slot, ':' and the constant's text; the slot counter advances. */
  lemma ConstantRefmodeParts(g: TypeGraph, s: CtxState, c: Value)
    ensures ConstantRefmode(g, s, c).0 ==
      WithContext(s.contexts, InstructionT)
        + (NatToString(s.constantIndex) + ":" + RefmodeOf(g, NextConstant(s).1, c).0)
    ensures SameShape(NextConstant(s).1, ConstantRefmode(g, s, c).1)
  {
  }

  /** Two constants written one after the other inside one instruction never
      share a refmode, whatever their values. */
  lemma ConstantRefmodesDistinct(g: TypeGraph, s: CtxState, c1: Value, c2: Value)
    ensures ConstantRefmode(g, s, c1).0 != ConstantRefmode(g, ConstantRefmode(g, s, c1).1, c2).0
  {
    var s1 := ConstantRefmode(g, s, c1).1;
    ConstantRefmodeParts(g, s, c1);
    ConstantRefmodeParts(g, s1, c2);
    var r1 := ConstantRefmode(g, s, c1).0;
    var r2 := ConstantRefmode(g, s1, c2).0;
    WithContextShape(s.contexts, s1.contexts, InstructionT);
    var p := WithContext(s.contexts, InstructionT);
    var t1 := RefmodeOf(g, NextConstant(s).1, c1).0;
    var t2 := RefmodeOf(g, NextConstant(s1).1, c2).0;
    assert s1.constantIndex == s.constantIndex + 1;
    if r1 == r2 {
      assert r1[|p|..] == NatToString(s.constantIndex) + [':'] + t1;
      assert r2[|p|..] == NatToString(s.constantIndex + 1) + [':'] + t2;
      NumberThenSeparator(s.constantIndex, s.constantIndex + 1, ':', t1, t2);
    }
  }

  /** An inline-asm operand consumes no slot, yet its refmode never collides
      with the refmode of a constant of the same instruction: after the
      shared instruction prefix the one continues with ':', the other with a
      slot digit. */
  lemma AsmRefmodeNotConstant(g: TypeGraph, s: CtxState, c: Value)
    ensures AsmRefmode(s) != ConstantRefmode(g, s, c).0
  {
    ConstantRefmodeParts(g, s, c);
    var p := WithContext(s.contexts, InstructionT);
    var d := NatToString(s.constantIndex);
    var t := RefmodeOf(g, NextConstant(s).1, c).0;
    assert AsmRefmode(s)[|p|] == ':';
    assert ConstantRefmode(g, s, c).0[|p|] == d[0];
    assert IsDigit(d[0]);
  }

  /** Pushing and popping frames never changes the root frame, so a type, a
      function, a global value's root part and a metadata node have one
      refmode throughout a module. */
  lemma RootStable(s: CtxState, a: Anchor)
    requires WellFormed(s) && |s.contexts| >= 2
    ensures Push(s, a).contexts[0] == s.contexts[0]
    ensures Pop(s).contexts[0] == s.contexts[0]
    ensures NodeRefmode(Pop(s), "x") == NodeRefmode(s, "x")
  {
    PushWellFormed(s, a);
    PopWellFormed(s);
  }

  /** Metadata refmodes and function refmodes read the root frame only. */
  lemma GlobalRefmodesIgnoreFrames(s: CtxState, u: CtxState, f: Function, printed: string)
    requires WellFormed(s) && WellFormed(u)
    requires s.contexts[0].prefix == u.contexts[0].prefix
    ensures NodeRefmode(s, printed) == NodeRefmode(u, printed)
    ensures FunctionRefmode(s, f) == FunctionRefmode(u, f)
  {
  }

  /** A function's refmode is "<path>:name" inside the module read from
      path. */
  lemma FunctionRefmodeInModule(path: string, f: Function)
    ensures FunctionRefmode(Initial(path), f) == "<" + path + ">:" + f.self.name
  {
    InitialShape(path);
  }

  /** Two named identified structs share a type refmode exactly when they
      share a name, so the name alone identifies such a struct in the facts. */
  lemma NamedStructRefmodes(g: TypeGraph, t: TypeId, u: TypeId)
    requires t in g && g[t].kind.StructTy? && !g[t].kind.literal && |g[t].kind.name| > 0
    requires u in g && g[u].kind.StructTy? && !g[u].kind.literal && |g[u].kind.name| > 0
    ensures TypeRefmode(g, t) == TypeRefmode(g, u) <==> g[t].kind.name == g[u].kind.name
  {
    if TypeRefmode(g, t) == TypeRefmode(g, u) {
      PrefixCancel("%", g[t].kind.name, g[u].kind.name);
    }
  }

  /** A Value that is a block gets the block refmode, with "[basicblock]". */
  lemma ValueRefmodeRoutesBlocks(g: TypeGraph, s: CtxState, v: Value)
    requires v.kind.BlockV?
    ensures ValueRefmode(g, s, v) == BlockRefmode(g, s, v)
  {
  }
}
