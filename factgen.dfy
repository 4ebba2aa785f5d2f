// processModule: the traversal that drives every writer. After the module
// is entered it writes the global variables, then the aliases, then the
// context-sensitivity option, then every function: its own facts, the
// points-to signatures of every pattern that matches its name, and, when
// none matches, its blocks, its instructions and its local variables.
// Every block, instruction and function is processed inside a frame of its
// own, pushed on entry and popped on exit. The functions on `GenState` are
// the specification; the methods at the end run the same loops on the
// generator object.
module FactGen {
  import opened Common
  import opened Llvm
  import opened Contexts
  import opened Refmodes
  import opened Generator
  import Numbering
  import Constants
  import Globals
  import Functions
  import Instructions
  import Variables
  import Signatures
  import Demangler
  import ContextSensitivities

  /** What processModule is given besides the module: the signatures file
      (its path and its parsed contents, None when it is not JSON), the
      context sensitivity, which of the two writeFunction variants is built
      in, and the order in which the unordered variable cache is walked. */
  datatype Options = Options(
    signatures: Option<(string, Option<Signatures.Json>)>,
    sensitivity: ContextSensitivities.ContextSensitivity,
    variant: Functions.Variant,
    walk: map<string, TypeId> -> seq<string>)

  /** The walk lists every cached variable once. */
  ghost predicate Walks(walk: map<string, TypeId> -> seq<string>) {
    forall vars: map<string, TypeId> :: Variables.IterationOrder(walk(vars), vars)
  }

  // ---------------------------------------------------------------------
  // Frames
  // ---------------------------------------------------------------------

  /** u has the frames of s: the same anchors and prefixes and the same
      function marker; counters and numberings may differ. */
  ghost predicate SameStack(s: CtxState, u: CtxState) {
    && |s.contexts| == |u.contexts|
    && (forall i :: 0 <= i < |s.contexts| ==>
          s.contexts[i].anchor == u.contexts[i].anchor && s.contexts[i].prefix == u.contexts[i].prefix)
    && s.iFunctionCtx == u.iFunctionCtx
  }

  /** u follows s: facts were only appended and the frames are as they were. */
  ghost predicate Follows(s: GenState, u: GenState) {
    s.facts <= u.facts && SameStack(s.ctx, u.ctx)
  }

  /** The module level: the root frame alone, hence no active function. */
  ghost predicate TopLevel(c: CtxState) {
    WellFormed(c) && |c.contexts| == 1
  }

  /** The function-qualified prefix of the current frames. */
  function FnPrefix(c: CtxState): string {
    WithContext(c.contexts, FunctionT)
  }

  /** u grows s: facts were only appended, and the frames and the
      instruction counter are as they were. What happens inside a frame. */
  ghost predicate Grows(s: GenState, u: GenState) {
    s.facts <= u.facts && SameFrames(s.ctx, u.ctx)
  }

  lemma GrowsTrans(a: GenState, b: GenState, c: GenState)
    requires Grows(a, b) && Grows(b, c)
    ensures Grows(a, c) && Follows(a, c)
  {
  }

  lemma FollowsTrans(a: GenState, b: GenState, c: GenState)
    requires Follows(a, b) && Follows(b, c)
    ensures Follows(a, c)
  {
  }

  lemma SameFramesFollow(s: GenState, u: GenState)
    requires s.facts <= u.facts && SameFrames(s.ctx, u.ctx)
    ensures Follows(s, u)
  {
  }

  /** What the frames decide is the same under SameStack. */
  lemma SameStackKeeps(s: CtxState, u: CtxState)
    requires SameStack(s, u)
    ensures WellFormed(s) ==> WellFormed(u)
    ensures ActiveFunction(s) == ActiveFunction(u)
    ensures FnPrefix(s) == FnPrefix(u)
  {
    WithContextShape(s.contexts, u.contexts, FunctionT);
  }

  /** A frame above a frame the scan stops at is never reached. */
  lemma {:induction false} WithContextAbove(frames: seq<Frame>, top: Frame, t: Target, k: nat)
    requires k < |frames| && Stops(frames[k], t)
    ensures WithContext(frames + [top], t) == WithContext(frames, t)
  {
    if Skipped(frames[0], t) || !Stops(frames[0], t) {
      assert (frames + [top])[1..] == frames[1..] + [top];
      WithContextAbove(frames[1..], top, t, k - 1);
    }
  }

  /** Context C(*this, v): a frame for the anchor. */
  function Enter(s: GenState, a: Anchor): GenState {
    s.(ctx := Push(s.ctx, a))
  }

  /** ~Context(): the top frame is dropped. */
  function Leave(s: GenState): GenState
    requires |s.ctx.contexts| >= 1
  {
    s.(ctx := Pop(s.ctx))
  }

  /** A frame entered and left again leaves the frames as they were, when it
      is not a function frame or no function was active before. */
  lemma EnterLeave(s: GenState, a: Anchor, x: GenState)
    requires Follows(Enter(s, a), x)
    requires a.FunctionA? ==> s.ctx.iFunctionCtx.None?
    ensures |x.ctx.contexts| >= 1 && Follows(s, Leave(x))
  {
    var n := |s.ctx.contexts|;
    assert x.ctx.contexts[n].anchor == Some(a);
    forall i | 0 <= i < n
      ensures s.ctx.contexts[i].anchor == Leave(x).ctx.contexts[i].anchor
      ensures s.ctx.contexts[i].prefix == Leave(x).ctx.contexts[i].prefix
    {
      assert Push(s.ctx, a).contexts[i] == s.ctx.contexts[i];
    }
  }

  /** Entering keeps the state well formed. */
  lemma EnterWellFormed(s: GenState, a: Anchor)
    requires WellFormed(s.ctx)
    ensures WellFormed(Enter(s, a).ctx)
  {
    PushWellFormed(s.ctx, a);
  }

  /** refmode<BasicBlock> on the state. */
  function BlockRef(g: TypeGraph, s: GenState, b: Value): (r: (string, GenState))
    ensures SameFrames(s.ctx, r.1.ctx) && r.1.facts == s.facts
  {
    var (r, c) := BlockRefmode(g, s.ctx, b);
    (r, s.(ctx := c))
  }

  // ---------------------------------------------------------------------
  // The writers keep the frames
  // ---------------------------------------------------------------------

  lemma GlobalVarGrows(g: TypeGraph, h: Host, s: GenState, gv: GlobalVar, id: string)
    ensures Grows(s, Globals.WriteGlobalVar(g, h, s, gv, id))
  {
    var mid := Globals.GlobalVarHead(g, h, s, gv, id);
    HeadGrows(g, h, s, gv, id);
    match gv.initializer
    case None =>
      TrailerGrows(mid, gv, id);
    case Some(c) =>
      var (initRef, w0) := Constants.WriteConstant(g, h, mid, c);
      ConstantGrows(g, h, mid, c, "global_var::initializer", id);
      TrailerGrows(Emit(w0, "global_var::initializer", [id, initRef]), gv, id);
  }

  lemma HeadGrows(g: TypeGraph, h: Host, s: GenState, gv: GlobalVar, id: string)
    ensures Grows(s, Globals.GlobalVarHead(g, h, s, gv, id))
  {
    Globals.GlobalVarHeadShape(g, h, s, gv, id);
  }

  lemma TrailerGrows(s: GenState, gv: GlobalVar, id: string)
    ensures Grows(s, Globals.GlobalVarTrailer(s, gv, id))
  {
    Globals.TrailerShape(s, gv, id);
  }

  /** A constant written and linked to its owner. */
  lemma ConstantGrows(g: TypeGraph, h: Host, s: GenState, c: Value, pred: string, owner: string)
    ensures var (r, w) := Constants.WriteConstant(g, h, s, c);
      Grows(s, Emit(w, pred, [owner, r]))
  {
    Constants.WriteConstantAdvance(g, h, s, c);
  }

  lemma AliasGrows(g: TypeGraph, h: Host, s: GenState, a: Alias, aliasId: string)
    ensures Grows(s, Globals.WriteGlobalAlias(g, h, s, a, aliasId))
  {
    AliasHeadGrows(g, s, a, aliasId);
    if a.aliasee.Some? {
      ConstantGrows(g, h, Globals.AliasHeadSt(g, s, a, aliasId), a.aliasee.value, "alias::aliasee", aliasId);
    }
  }

  lemma AliasHeadGrows(g: TypeGraph, s: GenState, a: Alias, aliasId: string)
    ensures Grows(s, Globals.AliasHeadSt(g, s, a, aliasId))
  {
    Globals.AliasHeadShape(g, s, a, aliasId);
  }

  lemma FunctionGrows(g: TypeGraph, h: Host, s: GenState, v: Functions.Variant, f: Function, funcref: string)
    ensures Grows(s, Functions.WriteFunction(g, h, s, v, f, funcref))
  {
    var pre := Functions.FunctionPre(g, h, s, v, f, funcref);
    FunctionPreGrows(g, h, s, v, f, funcref);
    var pers := Functions.FunctionPersonality(g, h, pre, v, f, funcref);
    if f.personality.Some? {
      ConstantGrows(g, h, pre, f.personality.value, Functions.FnPred(v, "pers_fn"), funcref);
    }
    var post := Functions.FunctionPost(h, pers, v, f, funcref);
    FunctionPostGrows(h, pers, v, f, funcref);
    FunctionBodyGrows(g, post, v, f, funcref);
    GrowsTrans(s, pre, pers);
    GrowsTrans(s, pers, post);
    GrowsTrans(s, post, Functions.FunctionBody(g, post, v, f, funcref));
  }

  lemma FunctionPreGrows(g: TypeGraph, h: Host, s: GenState, v: Functions.Variant, f: Function, funcref: string)
    ensures Grows(s, Functions.FunctionPre(g, h, s, v, f, funcref))
  {
    Functions.PreShape(g, h, s, v, f, funcref);
  }

  lemma FunctionPostGrows(h: Host, s: GenState, v: Functions.Variant, f: Function, funcref: string)
    ensures Grows(s, Functions.FunctionPost(h, s, v, f, funcref))
  {
    Functions.PostShape(h, s, v, f, funcref);
  }

  lemma FunctionBodyGrows(g: TypeGraph, s: GenState, v: Functions.Variant, f: Function, funcref: string)
    ensures Grows(s, Functions.FunctionBody(g, s, v, f, funcref))
  {
    if f.isDeclaration {
      Functions.DeclarationStops(g, s, v, f, funcref);
    } else {
      Functions.DefinitionParams(g, s, v, f, funcref);
      var u := Functions.FunctionBody(g, s, v, f, funcref);
      var head := [Fact(Functions.FnPred(v, "id_defn"), [funcref])]
                + When(f.section.Some?, Fact(Functions.FnPred(v, "section"), [funcref, if f.section.Some? then f.section.value else ""]));
      assert u.facts[..|s.facts|] == (s.facts + head)[..|s.facts|];
    }
  }

  /** One step of the instruction visitor only appends facts and keeps the
      frames. */
  lemma StepGrows(g: TypeGraph, h: Host, s: GenState, iref: string, st: Instructions.Step)
    requires Instructions.RunStep(g, h, s, iref, st).Ok?
    ensures Grows(s, Instructions.RunStep(g, h, s, iref, st).value)
  {
    Instructions.StepShows(g, h, s, iref, st);
    match st
    case Operand(pred, v) => RecordFrames(g, h, s, v);
    case Indexed(pred, v, k) => RecordFrames(g, h, s, v);
    case GepIndex(v, k) => RecordFrames(g, h, s, v);
    case Write(pred, cols) =>
    case TypeFact(pred, t) =>
    case Declare(addr, dv, loc) => DeclareGrows(g, s, addr, dv, loc);
    case Malformed(why) =>
  }

  /** Recording an operand keeps the frames. */
  lemma RecordFrames(g: TypeGraph, h: Host, s: GenState, v: Value)
    ensures SameFrames(s.ctx, Instructions.RecordValue(g, h, s, v).1.ctx)
  {
    var (r, u) := Instructions.RecordValue(g, h, s, v);
    Instructions.RecordValueShape(g, h, s, v, r, u);
  }

  lemma DeclareGrows(g: TypeGraph, s: GenState, addr: Value, dv: Option<DeclaredVar>, loc: Option<Loc>)
    ensures Grows(s, Instructions.DeclareFacts(g, s, addr, dv, loc))
  {
  }

  lemma {:induction false} RunStepsGrow(step: (GenState, Instructions.Step) -> Result<GenState>, s: GenState,
                                          steps: seq<Instructions.Step>, n: nat)
    requires n <= |steps|
    requires forall p: GenState, st: Instructions.Step :: step(p, st).Ok? ==> Grows(p, step(p, st).value)
    ensures Instructions.RunSteps(step, s, steps, n).Ok? ==> Grows(s, Instructions.RunSteps(step, s, steps, n).value)
  {
    if n > 0 {
      RunStepsGrow(step, s, steps, n - 1);
    }
  }

  /** The visitor only appends facts and keeps the frames. */
  lemma VisitGrows(g: TypeGraph, h: Host, s: GenState, I: Instruction)
    ensures Instructions.Visit(g, h, s, I).Ok? ==> Grows(s, Instructions.Visit(g, h, s, I).value)
  {
    var step := Instructions.Stepper(g, h, InstructionRefmode(s.ctx));
    forall p: GenState, st: Instructions.Step
      ensures step(p, st).Ok? ==> Grows(p, step(p, st).value)
    {
      Instructions.StepperApply(g, h, InstructionRefmode(s.ctx), p, st);
      if step(p, st).Ok? {
        StepGrows(g, h, p, InstructionRefmode(s.ctx), st);
      }
    }
    RunStepsGrow(step, s, Instructions.Plan(h, I), |Instructions.Plan(h, I)|);
  }

  // ---------------------------------------------------------------------
  // Points-to signatures
  // ---------------------------------------------------------------------

  /** The name a pattern is searched in: the demangled name when the raw
      name is an Itanium encoding, the raw name otherwise. */
  function SearchName(h: Host, name: string): string {
    if Demangler.IsItaniumEncoding(name) then Demangler.Demangle(h, name) else name
  }

  predicate Matches(h: Host, e: Signatures.SigEntry, name: string) {
    h.regexSearch(SearchName(h, name), e.pattern)
  }

  /** The loop over the preprocessed entries: every entry whose pattern is
      found in the search name has its signatures emitted for the raw name;
      `matched` records whether any entry matched. A malformed signature
      ends the run. */
  function SigLoop(h: Host, s: GenState, es: seq<Signatures.SigEntry>, name: string, matched: bool)
    : (r: Result<(GenState, bool)>)
    ensures r.Ok? ==> s.facts <= r.value.0.facts && r.value.0 == s.(facts := r.value.0.facts)
    decreases |es|
  {
    if es == [] then Ok((s, matched))
    else if Matches(h, es[0], name) then
      var e := Signatures.Emitted(name, es[0].sigs);
      if e.err.Some? then Err(e.err.value)
      else SigLoop(h, s.(facts := s.facts + e.facts), es[1..], name, true)
    else SigLoop(h, s, es[1..], name, matched)
  }

  // ---------------------------------------------------------------------
  // Blocks
  // ---------------------------------------------------------------------

  /** What std::string::substr reports for a position past the end. */
  const SubstrOutOfRange := "basic_string::substr"

  function Sigils(): set<char> { {'%', '!'} }

  /** The block's label: its id, type "label", its function's raw name and
      the name part from the last '%' or '!'. A refmode without either has
      no name part, and substr(npos) throws. */
  function BlockLabel(s: GenState, bbRef: string, fname: string): (r: Result<GenState>)
    ensures r.Ok? ==> Grows(s, r.value) && r.value == s.(facts := r.value.facts)
  {
    var s := Emit(Emit(Emit(s, "variable::id", [bbRef]), "variable::type", [bbRef, "label"]),
                  "variable::in_func", [bbRef, fname]);
    match FindLastOf(bbRef, Sigils())
    case None => Err(SubstrOutOfRange)
    case Some(k) => Ok(Emit(s, "variable::name", [bbRef, bbRef[k..]]))
  }

  /** One predecessor fact per CFG predecessor, in order. */
  function Preds(g: TypeGraph, s: GenState, bbRef: string, preds: seq<Value>): (r: GenState)
    ensures Grows(s, r)
    decreases |preds|
  {
    if preds == [] then s
    else
      var (p, s1) := BlockRef(g, s, preds[0]);
      Preds(g, Emit(s1, "block::predecessor", [bbRef, p]), bbRef, preds[1..])
  }

  // ---------------------------------------------------------------------
  // Instructions
  // ---------------------------------------------------------------------

  /** The target variable of a non-void instruction: assigns_to, its type
      cached and its refmode in the result map. */
  function Target(g: TypeGraph, s: GenState, I: Instruction, iref: string): (r: GenState)
    ensures Grows(s, r)
  {
    if IsVoid(g, I.self.ty) then s
    else
      var (t, s1) := ValueRef(g, s, I.self);
      AddResult(RecordVar(Emit(s1, "instr::assigns_to", [iref, t]), t, I.self.ty), t, I.self.id)
  }

  /** Everything written about an instruction before it is visited. */
  function InstrHead(g: TypeGraph, s: GenState, I: Instruction, b: Value, prev: Option<string>,
                     funcref: string, iref: string): (r: GenState)
    ensures Grows(s, r)
  {
    var s1 := Target(g, AddResult(s, iref, I.self.id), I, iref);
    var s2 := if prev.Some? then Emit(s1, "instr::successor", [prev.value, iref]) else s1;
    var s3 := Emit(s2, "instr::func", [iref, funcref]);
    var (bbe, s4) := BlockRef(g, s3, b);
    var r := Emit(s4, "instr::bb_entry", [iref, bbe]);
    GrowsTrans(s, s1, s3);
    GrowsTrans(s, s3, r);
    r
  }

  /** The metadata loop: one pos fact per attachment still to visit, when
      the instruction has a debug location. */
  function Positions(s: GenState, iref: string, I: Instruction, n: nat): (r: GenState)
    ensures Grows(s, r)
    decreases n
  {
    if n == 0 then s
    else
      var s1 := match I.debugLoc
        case None => s
        case Some(loc) => Emit(s, "instr::pos", [iref, NatToString(loc.line), NatToString(loc.col)]);
      Positions(s1, iref, I, n - 1)
  }

  /** One instruction in its own frame. The result carries the
      instruction's refmode, which is the next instruction's predecessor. */
  function InstrStep(g: TypeGraph, h: Host, s: GenState, I: Instruction, b: Value, prev: Option<string>,
                     funcref: string): (r: Result<(GenState, string)>)
    ensures r.Ok? ==> Follows(s, r.value.0) && r.value.0.ctx.instrIndex == s.ctx.instrIndex + 1
  {
    var s1 := Enter(s, InstrA(I.self));
    var iref := InstructionRefmode(s1.ctx);
    match InstrInside(g, h, s1, I, b, prev, funcref, iref)
    case Err(e) => Err(e)
    case Ok(s4) =>
      InstrFrameCloses(s, I.self, s4);
      Ok((Leave(s4), iref))
  }

  /** Inside the instruction's frame: the head, the visitor, the positions.
      Only facts are appended after the head. */
  function InstrInside(g: TypeGraph, h: Host, s1: GenState, I: Instruction, b: Value, prev: Option<string>,
                       funcref: string, iref: string): (r: Result<GenState>)
    ensures r.Ok? ==> InstrHead(g, s1, I, b, prev, funcref, iref).facts <= r.value.facts && Grows(s1, r.value)
  {
    var s2 := InstrHead(g, s1, I, b, prev, funcref, iref);
    match Instructions.Visit(g, h, s2, I)
    case Err(e) => Err(e)
    case Ok(s3) =>
      VisitGrows(g, h, s2, I);
      var s4 := Positions(s3, iref, I, I.mdCount);
      GrowsTrans(s1, s2, s3);
      GrowsTrans(s1, s3, s4);
      Ok(s4)
  }

  /** Leaving an instruction frame inside which only facts were appended:
      the frames are as before and the counter is one further. */
  lemma InstrFrameCloses(s: GenState, v: Value, x: GenState)
    requires Grows(Enter(s, InstrA(v)), x)
    ensures |x.ctx.contexts| == |s.ctx.contexts| + 1
    ensures Follows(s, Leave(x)) && Leave(x).ctx.instrIndex == s.ctx.instrIndex + 1
  {
    EnterLeave(s, InstrA(v), x);
  }

  /** The instructions of a block in order, threading the previous
      instruction's refmode. */
  function Instrs(g: TypeGraph, h: Host, s: GenState, b: Value, ins: seq<Instruction>, prev: Option<string>,
                  funcref: string): (r: Result<(GenState, Option<string>)>)
    ensures r.Ok? ==> Follows(s, r.value.0) && r.value.0.ctx.instrIndex == s.ctx.instrIndex + |ins|
    decreases |ins|
  {
    if ins == [] then Ok((s, prev))
    else match InstrStep(g, h, s, ins[0], b, prev, funcref)
      case Err(e) => Err(e)
      case Ok((s1, iref)) =>
        var r := Instrs(g, h, s1, b, ins[1..], Some(iref), funcref);
        if r.Ok? then FollowsTrans(s, s1, r.value.0); r else r
  }

  /** One block in its own frame: its label, its predecessors, its
      instructions. */
  function BlockStep(g: TypeGraph, h: Host, s: GenState, b: Block, fname: string, funcref: string,
                     prev: Option<string>): (r: Result<(GenState, Option<string>)>)
    ensures r.Ok? ==> Follows(s, r.value.0) && r.value.0.ctx.instrIndex == s.ctx.instrIndex + |b.instrs|
  {
    var s1 := Enter(s, BlockA(b.self));
    match BlockInside(g, h, s1, b, fname, funcref, prev)
    case Err(e) => Err(e)
    case Ok((s5, last)) =>
      BlockFrameCloses(s, b.self, s5);
      Ok((Leave(s5), last))
  }

  /** The work inside a block's frame. */
  function BlockInside(g: TypeGraph, h: Host, s1: GenState, b: Block, fname: string, funcref: string,
                       prev: Option<string>): (r: Result<(GenState, Option<string>)>)
    ensures r.Ok? ==> Follows(s1, r.value.0) && r.value.0.ctx.instrIndex == s1.ctx.instrIndex + |b.instrs|
  {
    var (bbRef, s2) := BlockRef(g, s1, b.self);
    match BlockLabel(s2, bbRef, fname)
    case Err(e) => Err(e)
    case Ok(s3) =>
      var s4 := Preds(g, s3, bbRef, b.preds);
      match Instrs(g, h, s4, b.self, b.instrs, prev, funcref)
      case Err(e) => Err(e)
      case Ok((s5, last)) =>
        GrowsTrans(s1, s2, s3);
        GrowsTrans(s1, s3, s4);
        FollowsTrans(s1, s4, s5);
        Ok((s5, last))
  }

  /** Leaving a block frame inside which the frames were kept: the frames
      are as before and the counter is where the block left it. */
  lemma BlockFrameCloses(s: GenState, v: Value, x: GenState)
    requires Follows(Enter(s, BlockA(v)), x)
    ensures |x.ctx.contexts| >= 1 && Enter(s, BlockA(v)).ctx.instrIndex == s.ctx.instrIndex
    ensures Follows(s, Leave(x)) && Leave(x).ctx.instrIndex == x.ctx.instrIndex
  {
    EnterLeave(s, BlockA(v), x);
  }

  /** The number of instructions in the blocks. */
  function InstrCount(bs: seq<Block>): nat
    decreases |bs|
  {
    if bs == [] then 0 else |bs[0].instrs| + InstrCount(bs[1..])
  }

  /** The blocks of a function in order; the previous instruction carries
      over from one block to the next. */
  function Blocks(g: TypeGraph, h: Host, s: GenState, bs: seq<Block>, fname: string, funcref: string,
                  prev: Option<string>): (r: Result<GenState>)
    ensures r.Ok? ==> Follows(s, r.value) && r.value.ctx.instrIndex == s.ctx.instrIndex + InstrCount(bs)
    decreases |bs|
  {
    if bs == [] then Ok(s)
    else match BlockStep(g, h, s, bs[0], fname, funcref, prev)
      case Err(e) => Err(e)
      case Ok((s1, last)) =>
        var r := Blocks(g, h, s1, bs[1..], fname, funcref, last);
        if r.Ok? then FollowsTrans(s, s1, r.value); r else r
  }

  // ---------------------------------------------------------------------
  // Functions
  // ---------------------------------------------------------------------

  /** A function in its own frame: its refmode (the root prefix and the raw
      name) in the result map, writeFunction, the signatures; when no
      pattern matched, its blocks and then writeLocalVariables. A matched
      function ends right after its signatures, without flushing the
      variable cache. */
  function FunctionStep(g: TypeGraph, h: Host, o: Options, s: GenState, es: seq<Signatures.SigEntry>,
                        f: Function): (r: Result<GenState>)
    requires WellFormed(s.ctx) && s.ctx.iFunctionCtx.None? && Walks(o.walk)
    ensures r.Ok? ==> Follows(s, r.value)
  {
    match FunctionInside(g, h, o, s, es, f)
    case Err(e) => Err(e)
    case Ok(x) =>
      EnterLeave(s, FunctionA(f), x);
      Ok(Leave(x))
  }

  /** The work inside a function's frame: the opening, the signatures and,
      when none matched, the body. */
  function FunctionInside(g: TypeGraph, h: Host, o: Options, s: GenState, es: seq<Signatures.SigEntry>,
                          f: Function): (r: Result<GenState>)
    requires WellFormed(s.ctx) && s.ctx.iFunctionCtx.None? && Walks(o.walk)
    ensures r.Ok? ==> Follows(Enter(s, FunctionA(f)), r.value)
  {
    var s1 := Enter(s, FunctionA(f));
    var (funcref, s2) := Opened(g, h, o, s, f);
    match SigLoop(h, s2, es, f.self.name, false)
    case Err(e) => Err(e)
    case Ok((s3, matched)) =>
      FollowsTrans(s1, s2, s3);
      if matched then Ok(s3)
      else
        PushFunction(s.ctx, f);
        SameStackKeeps(s1.ctx, s3.ctx);
        match FunctionBody(g, h, o, s3, f, funcref)
        case Err(e) => Err(e)
        case Ok(s5) =>
          FollowsTrans(s1, s3, s5);
          Ok(s5)
  }

  /** The body of a function no pattern matched, in its frame: its blocks,
      then writeLocalVariables, which empties the variable cache. */
  function FunctionBody(g: TypeGraph, h: Host, o: Options, s: GenState, f: Function, funcref: string)
    : (r: Result<GenState>)
    requires ActiveFunction(s.ctx).Some? && Walks(o.walk)
    ensures r.Ok? ==> Follows(s, r.value) && r.value.vars == map[]
  {
    match Blocks(g, h, s, f.blocks, f.self.name, funcref, None)
    case Err(e) => Err(e)
    case Ok(s4) =>
      SameStackKeeps(s.ctx, s4.ctx);
      var s5 := Variables.LocalVariables(g, s4, o.walk(s4.vars));
      Variables.LocalVariablesShape(g, s4, o.walk(s4.vars), s5);
      FollowsTrans(s, s4, s5);
      Ok(s5)
  }

  /** The opening of a function: its frame entered, its refmode put in the
      result map and writeFunction done. The refmode and the state. */
  function Opened(g: TypeGraph, h: Host, o: Options, s: GenState, f: Function): (r: (string, GenState))
    requires WellFormed(s.ctx)
    ensures Grows(Enter(s, FunctionA(f)), r.1) && Follows(Enter(s, FunctionA(f)), r.1)
  {
    var s1 := Enter(s, FunctionA(f));
    EnterWellFormed(s, FunctionA(f));
    var funcref := FunctionRefmode(s1.ctx, f);
    var s2 := AddResult(s1, funcref, f.self.id);
    FunctionGrows(g, h, s2, o.variant, f, funcref);
    (funcref, Functions.WriteFunction(g, h, s2, o.variant, f, funcref))
  }

  /** The functions of the module in order. */
  function FunctionsLoop(g: TypeGraph, h: Host, o: Options, s: GenState, es: seq<Signatures.SigEntry>,
                         fs: seq<Function>): (r: Result<GenState>)
    requires WellFormed(s.ctx) && s.ctx.iFunctionCtx.None? && Walks(o.walk)
    ensures r.Ok? ==> Follows(s, r.value)
    decreases |fs|
  {
    if fs == [] then Ok(s)
    else match FunctionStep(g, h, o, s, es, fs[0])
      case Err(e) => Err(e)
      case Ok(s1) =>
        SameStackKeeps(s.ctx, s1.ctx);
        var r := FunctionsLoop(g, h, o, s1, es, fs[1..]);
        if r.Ok? then FollowsTrans(s, s1, r.value); r else r
  }

  // ---------------------------------------------------------------------
  // Globals and the module
  // ---------------------------------------------------------------------

  /** The global variables in order, each under its global refmode. */
  function GlobalsLoop(g: TypeGraph, h: Host, s: GenState, gvs: seq<GlobalVar>): (r: GenState)
    requires WellFormed(s.ctx)
    ensures Follows(s, r)
    decreases |gvs|
  {
    if gvs == [] then s
    else
      var (id, s1) := GlobalRef(g, s, gvs[0].self);
      var s2 := Globals.WriteGlobalVar(g, h, s1, gvs[0], id);
      GlobalVarGrows(g, h, s1, gvs[0], id);
      GrowsTrans(s, s1, s2);
      SameStackKeeps(s.ctx, s2.ctx);
      var r := GlobalsLoop(g, h, s2, gvs[1..]);
      FollowsTrans(s, s2, r);
      r
  }

  /** The aliases in order, each under its global refmode. */
  function AliasesLoop(g: TypeGraph, h: Host, s: GenState, als: seq<Alias>): (r: GenState)
    requires WellFormed(s.ctx)
    ensures Follows(s, r)
    decreases |als|
  {
    if als == [] then s
    else
      var (id, s1) := GlobalRef(g, s, als[0].self);
      var s2 := Globals.WriteGlobalAlias(g, h, s1, als[0], id);
      AliasGrows(g, h, s1, als[0], id);
      GrowsTrans(s, s1, s2);
      SameStackKeeps(s.ctx, s2.ctx);
      var r := AliasesLoop(g, h, s2, als[1..]);
      FollowsTrans(s, s2, r);
      r
  }

  /** The signature entries, none without a signatures file. */
  function Entries(h: Host, o: Options): Result<seq<Signatures.SigEntry>> {
    match o.signatures
    case None => Ok([])
    case Some((path, parsed)) => Signatures.Preprocess(h.regexError, path, parsed)
  }

  /** processModule from the generator's state `s`: the module is entered
      (fresh frames under the root "<path>"), the signatures are read, then
      the module's contents are written. */
  function ProcessModule(g: TypeGraph, h: Host, o: Options, s: GenState, path: string, m: Module)
    : (r: Result<GenState>)
    requires Walks(o.walk)
    ensures r.Ok? ==> s.facts <= r.value.facts && TopLevel(r.value.ctx)
  {
    var s0 := s.(ctx := Initial(path));
    InitialShape(path);
    match Entries(h, o)
    case Err(e) => Err(e)
    case Ok(es) =>
      var r := ModuleBody(g, h, o, s0, es, m);
      if r.Ok? then SameStackKeeps(s0.ctx, r.value.ctx); r else r
  }

  /** The globals, the aliases, the options fact and the functions. */
  function ModuleBody(g: TypeGraph, h: Host, o: Options, s: GenState, es: seq<Signatures.SigEntry>, m: Module)
    : (r: Result<GenState>)
    requires WellFormed(s.ctx) && s.ctx.iFunctionCtx.None? && Walks(o.walk)
    ensures r.Ok? ==> Follows(s, r.value)
  {
    var s1 := GlobalsLoop(g, h, s, m.globals);
    SameStackKeeps(s.ctx, s1.ctx);
    var s2 := AliasesLoop(g, h, s1, m.aliases);
    SameStackKeeps(s1.ctx, s2.ctx);
    var s3 := OptionsFact(s2, o);
    FollowsTrans(s, s1, s2);
    var r := FunctionsLoop(g, h, o, s3, es, m.functions);
    if r.Ok? then
      FollowsTrans(s, s2, s3);
      FollowsTrans(s, s3, r.value);
      r
    else r
  }

  /** The context-sensitivity option. */
  function OptionsFact(s: GenState, o: Options): GenState {
    Emit(s, "user::options", ["context_sensitivity", ContextSensitivities.ToString(o.sensitivity)])
  }

  // ---------------------------------------------------------------------
  // What the traversal promises
  // ---------------------------------------------------------------------

  /** The entries whose pattern is found in the function's search name, in
      order. */
  function Matching(h: Host, es: seq<Signatures.SigEntry>, name: string): seq<Signatures.SigEntry>
    decreases |es|
  {
    if es == [] then []
    else (if Matches(h, es[0], name) then [es[0]] else []) + Matching(h, es[1..], name)
  }

  /** The signature facts of the given entries, one entry after another. */
  function SigFacts(name: string, es: seq<Signatures.SigEntry>): seq<Fact>
    decreases |es|
  {
    if es == [] then [] else Signatures.Emitted(name, es[0].sigs).facts + SigFacts(name, es[1..])
  }

  /** Every one of the entries emits without a malformed signature. */
  predicate AllEmit(name: string, es: seq<Signatures.SigEntry>) {
    forall i :: 0 <= i < |es| ==> Signatures.Emitted(name, es[i].sigs).err.None?
  }

  /** The signature loop emits, for the raw name, the signatures of exactly
      the entries whose pattern matches, in order; it fails exactly when one
      of those is malformed, with that one's message; and it reports a
      match exactly when some entry matched (or one had before). */
  lemma SigLoopMeaning(h: Host, s: GenState, es: seq<Signatures.SigEntry>, name: string, matched: bool)
    ensures var r := SigLoop(h, s, es, name, matched);
      var ms := Matching(h, es, name);
      && (r.Ok? <==> AllEmit(name, ms))
      && (r.Ok? ==> r.value.0 == s.(facts := s.facts + SigFacts(name, ms)))
      && (r.Ok? ==> (r.value.1 <==> matched || exists i :: 0 <= i < |es| && Matches(h, es[i], name)))
      && (r.Err? ==> exists i :: 0 <= i < |ms| && Signatures.Emitted(name, ms[i].sigs).err == Some(r.msg))
  {
    SigLoopFails(h, s, es, name, matched);
    SigLoopFacts(h, s, es, name, matched);
    SigLoopMatched(h, s, es, name, matched);
  }

  /** AllEmit of one more entry in front. */
  lemma AllEmitCons(name: string, e: Signatures.SigEntry, rest: seq<Signatures.SigEntry>)
    ensures AllEmit(name, [e] + rest) <==> Signatures.Emitted(name, e.sigs).err.None? && AllEmit(name, rest)
  {
    var ms := [e] + rest;
    if Signatures.Emitted(name, e.sigs).err.None? && AllEmit(name, rest) {
      forall i | 0 <= i < |ms| ensures Signatures.Emitted(name, ms[i].sigs).err.None? {
        if i > 0 { assert ms[i] == rest[i - 1]; }
      }
    }
    if AllEmit(name, ms) {
      assert ms[0] == e;
      forall i | 0 <= i < |rest| ensures Signatures.Emitted(name, rest[i].sigs).err.None? {
        assert rest[i] == ms[i + 1];
      }
    }
  }

  /** The loop fails exactly when a matching entry is malformed, with the
      message of one of them. */
  lemma {:induction false} SigLoopFails(h: Host, s: GenState, es: seq<Signatures.SigEntry>, name: string, matched: bool)
    ensures var r := SigLoop(h, s, es, name, matched);
      var ms := Matching(h, es, name);
      && (r.Ok? <==> AllEmit(name, ms))
      && (r.Err? ==> exists i :: 0 <= i < |ms| && Signatures.Emitted(name, ms[i].sigs).err == Some(r.msg))
    decreases |es|
  {
    if es != [] {
      var ms := Matching(h, es, name);
      var rest := Matching(h, es[1..], name);
      if Matches(h, es[0], name) {
        assert ms == [es[0]] + rest;
        AllEmitCons(name, es[0], rest);
        var e := Signatures.Emitted(name, es[0].sigs);
        if e.err.None? {
          var s1 := s.(facts := s.facts + e.facts);
          SigLoopFails(h, s1, es[1..], name, true);
          var r := SigLoop(h, s1, es[1..], name, true);
          if r.Err? {
            var i :| 0 <= i < |rest| && Signatures.Emitted(name, rest[i].sigs).err == Some(r.msg);
            assert ms[i + 1] == rest[i];
          }
        } else {
          assert ms[0] == es[0];
        }
      } else {
        assert ms == rest;
        SigLoopFails(h, s, es[1..], name, matched);
      }
    }
  }

  /** A successful loop appends the signature facts of the matching
      entries, in order, and changes nothing else. */
  lemma {:induction false} SigLoopFacts(h: Host, s: GenState, es: seq<Signatures.SigEntry>, name: string, matched: bool)
    ensures var r := SigLoop(h, s, es, name, matched);
      r.Ok? ==> r.value.0 == s.(facts := s.facts + SigFacts(name, Matching(h, es, name)))
    decreases |es|
  {
    if es != [] {
      var ms := Matching(h, es, name);
      var rest := Matching(h, es[1..], name);
      if Matches(h, es[0], name) {
        assert ms == [es[0]] + rest;
        var e := Signatures.Emitted(name, es[0].sigs);
        if e.err.None? {
          var s1 := s.(facts := s.facts + e.facts);
          SigLoopFacts(h, s1, es[1..], name, true);
          assert s.facts + e.facts + SigFacts(name, rest) == s.facts + SigFacts(name, ms);
        }
      } else {
        assert ms == rest;
        SigLoopFacts(h, s, es[1..], name, matched);
      }
    }
  }

  /** A successful loop reports a match exactly when one was reported
      before or some entry matches. */
  lemma {:induction false} SigLoopMatched(h: Host, s: GenState, es: seq<Signatures.SigEntry>, name: string, matched: bool)
    ensures var r := SigLoop(h, s, es, name, matched);
      r.Ok? ==> (r.value.1 <==> matched || exists i :: 0 <= i < |es| && Matches(h, es[i], name))
    decreases |es|
  {
    if es != [] {
      if Matches(h, es[0], name) {
        var e := Signatures.Emitted(name, es[0].sigs);
        if e.err.None? {
          SigLoopMatched(h, s.(facts := s.facts + e.facts), es[1..], name, true);
        }
      } else {
        SigLoopMatched(h, s, es[1..], name, matched);
        var r := SigLoop(h, s, es[1..], name, matched);
        if r.Ok? && r.value.1 && !matched {
          var i :| 0 <= i < |es[1..]| && Matches(h, es[1..][i], name);
          assert es[i + 1] == es[1..][i];
        }
        if r.Ok? && exists i :: 0 <= i < |es| && Matches(h, es[i], name) {
          var i :| 0 <= i < |es| && Matches(h, es[i], name);
          assert es[1..][i - 1] == es[i];
        }
      }
    }
  }

  /** The four facts of a block's label, given its name part. */
  function LabelFacts(bbRef: string, fname: string, namePart: string): seq<Fact> {
    [Fact("variable::id", [bbRef]), Fact("variable::type", [bbRef, "label"]),
     Fact("variable::in_func", [bbRef, fname]), Fact("variable::name", [bbRef, namePart])]
  }

  /** The label succeeds exactly when the refmode holds a '%' or '!'; it
      then writes the id, the "label" type, the function and the name part
      that runs from the last of them to the end. */
  lemma BlockLabelMeaning(s: GenState, bbRef: string, fname: string)
    ensures BlockLabel(s, bbRef, fname).Ok? <==> exists j :: 0 <= j < |bbRef| && bbRef[j] in Sigils()
    ensures BlockLabel(s, bbRef, fname).Ok? ==>
      exists k :: 0 <= k < |bbRef| && bbRef[k] in Sigils() && (forall j :: k < j < |bbRef| ==> bbRef[j] !in Sigils())
        && BlockLabel(s, bbRef, fname).value == s.(facts := s.facts + LabelFacts(bbRef, fname, bbRef[k..]))
  {
    var r := FindLastOf(bbRef, Sigils());
    if r.Some? {
      var k := r.value;
      var fs := LabelFacts(bbRef, fname, bbRef[k..]);
      assert s.facts + fs == s.facts + [fs[0]] + [fs[1]] + [fs[2]] + [fs[3]];
    }
  }

  /** Trimming keeps a leading '%'. */
  lemma SigilKept(x: string)
    ensures |Trim("%" + x)| > 0 && Trim("%" + x)[0] == '%'
  {
    var s := "%" + x;
    assert TrimLeft(s) == s;
  }

  /** Inside a function, a block whose type is not void is spelled with a
      '%': its name after the sigil or its slot. So its label never meets
      the substr exception. */
  lemma BlockLabelled(g: TypeGraph, s: GenState, b: Value, fname: string)
    requires b.kind.BlockV? && !IsVoid(g, b.ty)
    requires InnermostFunction(s.ctx.contexts).Some?
    ensures BlockLabel(BlockRef(g, s, b).1, BlockRef(g, s, b).0, fname).Ok?
  {
    var (txt, c1) := RefmodeOf(g, s.ctx, b);
    RefSigil(g, s, b);
    var bbRef := BlockRef(g, s, b).0;
    var pre := WithContext(c1.contexts, FunctionT) + "[basicblock]";
    assert bbRef == pre + txt;
    assert bbRef[|pre|] == '%';
    BlockLabelMeaning(BlockRef(g, s, b).1, bbRef, fname);
  }

  /** The local refmode of such a block starts with its sigil. */
  lemma RefSigil(g: TypeGraph, s: GenState, b: Value)
    requires b.kind.BlockV? && !IsVoid(g, b.ty)
    requires InnermostFunction(s.ctx.contexts).Some?
    ensures |RefmodeOf(g, s.ctx, b).0| > 0 && RefmodeOf(g, s.ctx, b).0[0] == '%'
  {
    var (txt, c1) := RefmodeOf(g, s.ctx, b);
    if HasName(b) {
      assert txt == Trim("%" + b.name);
      SigilKept(b.name);
    } else {
      SlotSigil(g, s, b);
    }
  }

  lemma SlotSigil(g: TypeGraph, s: GenState, b: Value)
    requires b.kind.BlockV? && !IsVoid(g, b.ty) && !HasName(b)
    requires InnermostFunction(s.ctx.contexts).Some?
    ensures |RefmodeOf(g, s.ctx, b).0| > 0 && RefmodeOf(g, s.ctx, b).0[0] == '%'
  {
    var (txt, c1) := RefmodeOf(g, s.ctx, b);
    var k := InnermostFunction(s.ctx.contexts).value;
    assert (txt, c1) == SlotRefmode(g, s.ctx, b);
    var fr := s.ctx.contexts[k];
    var computed := if |fr.numbering| == 0 then Numbering.NumberingOf(g, fr.anchor.value.f) else fr.numbering;
    var numbering := if b.id in computed then computed else computed[b.id := 0];
    assert txt == Trim("%" + NatToString(numbering[b.id]));
    SigilKept(NatToString(numbering[b.id]));
  }

  /** What the block refmodes of the current function start with. */
  function BlockPrefix(c: CtxState): string {
    FnPrefix(c) + "[basicblock]"
  }

  /** A block's refmode carries the function-qualified block prefix. */
  lemma BlockRefPrefix(g: TypeGraph, s: GenState, b: Value)
    ensures BlockPrefix(s.ctx) <= BlockRef(g, s, b).0
  {
    SameStackKeeps(s.ctx, BlockRef(g, s, b).1.ctx);
  }

  /** One predecessor fact per predecessor, each from this block's refmode
      to a block refmode of the same function. */
  lemma {:induction false} PredsFacts(g: TypeGraph, s: GenState, bbRef: string, preds: seq<Value>)
    ensures var u := Preds(g, s, bbRef, preds);
      && |u.facts| == |s.facts| + |preds|
      && forall i :: |s.facts| <= i < |u.facts| ==>
           && u.facts[i].pred == "block::predecessor" && |u.facts[i].cols| == 2
           && u.facts[i].cols[0] == bbRef && BlockPrefix(s.ctx) <= u.facts[i].cols[1]
    decreases |preds|
  {
    if preds != [] {
      var (p, s1) := BlockRef(g, s, preds[0]);
      BlockRefPrefix(g, s, preds[0]);
      var s2 := Emit(s1, "block::predecessor", [bbRef, p]);
      PredsFacts(g, s2, bbRef, preds[1..]);
      SameStackKeeps(s.ctx, s2.ctx);
      var u := Preds(g, s, bbRef, preds);
      assert u.facts[|s.facts|] == s2.facts[|s.facts|];
    }
  }

  /** The pos fact of an instruction with a debug location. */
  function PosFact(iref: string, loc: Loc): Fact {
    Fact("instr::pos", [iref, NatToString(loc.line), NatToString(loc.col)])
  }

  /** The metadata loop writes the same pos fact once per attachment when
      the instruction has a debug location, and nothing otherwise. */
  lemma {:induction false} PositionsFacts(s: GenState, iref: string, I: Instruction, n: nat)
    ensures var u := Positions(s, iref, I, n);
      && u == s.(facts := u.facts) && u.facts[..|s.facts|] == s.facts
      && |u.facts| == |s.facts| + (if I.debugLoc.Some? then n else 0)
      && forall i :: |s.facts| <= i < |u.facts| ==> I.debugLoc.Some? && u.facts[i] == PosFact(iref, I.debugLoc.value)
    decreases n
  {
    if n > 0 {
      var s1 := match I.debugLoc
        case None => s
        case Some(loc) => Emit(s, "instr::pos", [iref, NatToString(loc.line), NatToString(loc.col)]);
      PositionsFacts(s1, iref, I, n - 1);
    }
  }

  /** A non-void instruction gets one assigns_to fact from its refmode to
      its target, and the target is cached with the instruction's type and
      put in the result map; a void one gets nothing. */
  lemma TargetShape(g: TypeGraph, s: GenState, I: Instruction, iref: string)
    ensures var u := Target(g, s, I, iref);
      && u.facts[..|s.facts|] == s.facts
      && |u.facts| == |s.facts| + (if IsVoid(g, I.self.ty) then 0 else 1)
      && u.types == s.types && s.results.Keys <= u.results.Keys
      && (!IsVoid(g, I.self.ty) ==>
            var f := u.facts[|s.facts|];
            f.pred == "instr::assigns_to" && |f.cols| == 2 && f.cols[0] == iref
            && f.cols[1] in u.vars && u.vars[f.cols[1]] == I.self.ty && f.cols[1] in u.results)
  {
  }

  /** Before the visitor an instruction gets assigns_to to its target when
      it is not void, and the target is then cached with the instruction's
      type and put in the result map; three more facts when there is a
      previous instruction, two otherwise. The instruction's refmode is put
      in the result map. */
  lemma InstrHeadTarget(g: TypeGraph, s: GenState, I: Instruction, b: Value, prev: Option<string>,
                        funcref: string, iref: string)
    ensures var u := InstrHead(g, s, I, b, prev, funcref, iref);
      var lead := if IsVoid(g, I.self.ty) then 0 else 1;
      && |u.facts| == |s.facts| + lead + |SuccFacts(prev, iref)| + 2 && u.facts[..|s.facts|] == s.facts
      && (lead == 1 ==>
            var f := u.facts[|s.facts|];
            f.pred == "instr::assigns_to" && |f.cols| == 2 && f.cols[0] == iref
            && f.cols[1] in u.vars && u.vars[f.cols[1]] == I.self.ty && f.cols[1] in u.results)
      && iref in u.results && u.types == s.types
  {
    var s0 := AddResult(s, iref, I.self.id);
    TargetShape(g, s0, I, iref);
    InstrHeadFacts(g, s, I, b, prev, funcref, iref);
  }

  /** The head ends, in this order, with successor from the previous
      instruction when there is one, the instruction's function, and its
      block entry naming a block of the same function. */
  lemma InstrHeadLinks(g: TypeGraph, s: GenState, I: Instruction, b: Value, prev: Option<string>,
                       funcref: string, iref: string)
    ensures var u := InstrHead(g, s, I, b, prev, funcref, iref);
      var n := |u.facts|;
      && n >= |s.facts| + 2 + (if prev.Some? then 1 else 0)
      && (prev.Some? ==> u.facts[n - 3] == Fact("instr::successor", [prev.value, iref]))
      && u.facts[n - 2] == Fact("instr::func", [iref, funcref])
      && u.facts[n - 1].pred == "instr::bb_entry" && |u.facts[n - 1].cols| == 2
      && u.facts[n - 1].cols[0] == iref && BlockPrefix(s.ctx) <= u.facts[n - 1].cols[1]
  {
    var s0 := AddResult(s, iref, I.self.id);
    var s1 := Target(g, s0, I, iref);
    TargetShape(g, s0, I, iref);
    InstrHeadFacts(g, s, I, b, prev, funcref, iref);
    BlockRefPrefix(g, s1, b);
    SameStackKeeps(s.ctx, s1.ctx);
  }

  /** The successor fact, when there is a previous instruction. */
  function SuccFacts(prev: Option<string>, iref: string): seq<Fact> {
    if prev.Some? then [Fact("instr::successor", [prev.value, iref])] else []
  }

  /** After the target: the successor, the function and the block entry. */
  lemma InstrHeadFacts(g: TypeGraph, s: GenState, I: Instruction, b: Value, prev: Option<string>,
                       funcref: string, iref: string)
    ensures var s1 := Target(g, AddResult(s, iref, I.self.id), I, iref);
      var u := InstrHead(g, s, I, b, prev, funcref, iref);
      && u.facts == s1.facts + SuccFacts(prev, iref)
                    + [Fact("instr::func", [iref, funcref]), Fact("instr::bb_entry", [iref, BlockRef(g, s1, b).0])]
      && u.vars == s1.vars && u.results == s1.results && u.types == s1.types
  {
    var s1 := Target(g, AddResult(s, iref, I.self.id), I, iref);
    var s2 := if prev.Some? then Emit(s1, "instr::successor", [prev.value, iref]) else s1;
    assert s2.facts == s1.facts + SuccFacts(prev, iref);
  }

  /** A block or instruction frame above an active function keeps the
      function marker and the function-qualified prefix. */
  lemma EnterInner(s: GenState, a: Anchor)
    requires WellFormed(s.ctx) && s.ctx.iFunctionCtx.Some? && !a.FunctionA?
    ensures WellFormed(Enter(s, a).ctx) && Enter(s, a).ctx.iFunctionCtx == s.ctx.iFunctionCtx
    ensures FnPrefix(Enter(s, a).ctx) == FnPrefix(s.ctx)
  {
    EnterWellFormed(s, a);
    var k := s.ctx.iFunctionCtx.value;
    WithContextAbove(s.ctx.contexts, Enter(s, a).ctx.contexts[|s.ctx.contexts|], FunctionT, k);
    assert Enter(s, a).ctx.contexts == s.ctx.contexts + [Enter(s, a).ctx.contexts[|s.ctx.contexts|]];
  }

  /** Inside a function, an instruction's refmode is the function-qualified
      prefix and the instruction counter before it. */
  lemma InstrStepRef(g: TypeGraph, h: Host, s: GenState, I: Instruction, b: Value, prev: Option<string>,
                     funcref: string)
    requires WellFormed(s.ctx) && s.ctx.iFunctionCtx.Some?
    ensures var r := InstrStep(g, h, s, I, b, prev, funcref);
      r.Ok? ==> r.value.1 == FnPrefix(s.ctx) + NatToString(s.ctx.instrIndex)
  {
    EnterInner(s, InstrA(I.self));
    var s1 := Enter(s, InstrA(I.self));
    assert PrevIndex(s1.ctx.instrIndex) == s.ctx.instrIndex;
    assert InstructionRefmode(s1.ctx) == FnPrefix(s.ctx) + NatToString(s.ctx.instrIndex);
  }

  /** An instruction with a previous one is recorded as its successor. */
  lemma InstrStepLinked(g: TypeGraph, h: Host, s: GenState, I: Instruction, b: Value, prev: Option<string>,
                        funcref: string)
    ensures var r := InstrStep(g, h, s, I, b, prev, funcref);
      r.Ok? && prev.Some? ==> Fact("instr::successor", [prev.value, r.value.1]) in r.value.0.facts
  {
    var s1 := Enter(s, InstrA(I.self));
    var iref := InstructionRefmode(s1.ctx);
    var s2 := InstrHead(g, s1, I, b, prev, funcref, iref);
    InstrHeadLinks(g, s1, I, b, prev, funcref, iref);
    var r := InstrStep(g, h, s, I, b, prev, funcref);
    if r.Ok? && prev.Some? {
      var s4 := InstrInside(g, h, s1, I, b, prev, funcref, iref).value;
      assert s4.facts[|s2.facts| - 3] == Fact("instr::successor", [prev.value, iref]);
    }
  }

  /** After an instruction the next one finds the same function marker and
      function-qualified prefix, and the counter one further. */
  lemma InstrStepFrames(g: TypeGraph, h: Host, s: GenState, I: Instruction, b: Value, prev: Option<string>,
                        funcref: string)
    requires WellFormed(s.ctx)
    ensures var r := InstrStep(g, h, s, I, b, prev, funcref);
      r.Ok? ==> && WellFormed(r.value.0.ctx) && r.value.0.ctx.iFunctionCtx == s.ctx.iFunctionCtx
                && FnPrefix(r.value.0.ctx) == FnPrefix(s.ctx)
                && r.value.0.ctx.instrIndex == s.ctx.instrIndex + 1
  {
    var r := InstrStep(g, h, s, I, b, prev, funcref);
    if r.Ok? {
      SameStackKeeps(s.ctx, r.value.0.ctx);
    }
  }

  /** At the module level a function opens with the counter at zero, its
      refmode is the root prefix and its raw name, and its instructions are
      qualified by the root prefix and the name. */
  lemma FunctionOpening(g: TypeGraph, h: Host, o: Options, s: GenState, f: Function)
    requires TopLevel(s.ctx)
    ensures var (funcref, u) := Opened(g, h, o, s, f);
      && funcref == s.ctx.contexts[0].prefix + ":" + f.self.name
      && u.ctx.instrIndex == 0 && u.ctx.iFunctionCtx == Some(1) && WellFormed(u.ctx)
      && FnPrefix(u.ctx) == s.ctx.contexts[0].prefix + ":" + f.self.name + ":"
      && ActiveFunction(u.ctx) == Some(f)
      && s.facts <= u.facts
  {
    var s1 := Enter(s, FunctionA(f));
    PushFunction(s.ctx, f);
    var top := Frame(Some(FunctionA(f)), f.self.name, map[]);
    assert s1.ctx.contexts == [s.ctx.contexts[0], top];
    assert s1.ctx.contexts[1..] == [top];
    assert WithContext([top], FunctionT) == f.self.name + ":";
    SameStackKeeps(s1.ctx, Opened(g, h, o, s, f).1.ctx);
  }

  /** A function that some pattern matches gets its opening and the
      signature facts of the matching entries and nothing else: no block,
      no instruction, and no writeLocalVariables, so the variable cache is
      left as the opening left it. */
  lemma FunctionSkipsBody(g: TypeGraph, h: Host, o: Options, s: GenState, es: seq<Signatures.SigEntry>, f: Function)
    requires WellFormed(s.ctx) && s.ctx.iFunctionCtx.None? && Walks(o.walk)
    ensures var (funcref, u) := Opened(g, h, o, s, f);
      var ms := Matching(h, es, f.self.name);
      |ms| > 0 && AllEmit(f.self.name, ms) ==>
        FunctionStep(g, h, o, s, es, f) == Ok(Leave(u.(facts := u.facts + SigFacts(f.self.name, ms))))
  {
    var (funcref, u) := Opened(g, h, o, s, f);
    var ms := Matching(h, es, f.self.name);
    SigLoopFacts(h, u, es, f.self.name, false);
    SigLoopFails(h, u, es, f.self.name, false);
    SigLoopMatched(h, u, es, f.self.name, false);
    if |ms| > 0 {
      var i :| 0 <= i < |es| && Matches(h, es[i], f.self.name) by {
        MatchingFrom(h, es, f.self.name);
      }
    }
  }

  /** A malformed signature of a matching entry ends the run. */
  lemma FunctionSigFails(g: TypeGraph, h: Host, o: Options, s: GenState, es: seq<Signatures.SigEntry>, f: Function)
    requires WellFormed(s.ctx) && s.ctx.iFunctionCtx.None? && Walks(o.walk)
    ensures !AllEmit(f.self.name, Matching(h, es, f.self.name)) ==> FunctionStep(g, h, o, s, es, f).Err?
  {
    var (funcref, u) := Opened(g, h, o, s, f);
    SigLoopFails(h, u, es, f.self.name, false);
  }

  /** A function that no pattern matches has its body written and leaves
      the variable cache empty. */
  lemma FunctionFlushes(g: TypeGraph, h: Host, o: Options, s: GenState, es: seq<Signatures.SigEntry>, f: Function)
    requires WellFormed(s.ctx) && s.ctx.iFunctionCtx.None? && Walks(o.walk)
    ensures var r := FunctionStep(g, h, o, s, es, f);
      |Matching(h, es, f.self.name)| == 0 && r.Ok? ==> r.value.vars == map[]
  {
    var (funcref, u) := Opened(g, h, o, s, f);
    SigLoopMatched(h, u, es, f.self.name, false);
    MatchingFrom(h, es, f.self.name);
  }

  /** Matching is empty exactly when no entry matches. */
  lemma {:induction false} MatchingFrom(h: Host, es: seq<Signatures.SigEntry>, name: string)
    ensures |Matching(h, es, name)| > 0 <==> exists i :: 0 <= i < |es| && Matches(h, es[i], name)
    decreases |es|
  {
    if es != [] {
      MatchingFrom(h, es[1..], name);
      if exists i :: 0 <= i < |es[1..]| && Matches(h, es[1..][i], name) {
        var i :| 0 <= i < |es[1..]| && Matches(h, es[1..][i], name);
        assert Matches(h, es[i + 1], name);
      }
      if exists i :: 0 <= i < |es| && Matches(h, es[i], name) {
        var i :| 0 <= i < |es| && Matches(h, es[i], name);
        if i > 0 { assert es[1..][i - 1] == es[i]; }
      }
    }
  }

  // ---------------------------------------------------------------------
  // The traversal on the generator object
  // ---------------------------------------------------------------------

  /** A run's result with a value beside the state, as a method reports it:
      no error, the state reached and the value, or the run's error. */
  predicate Reached<T(==)>(r: Result<(GenState, T)>, err: Option<string>, now: GenState, x: T) {
    match r
    case Ok((u, y)) => err.None? && now == u && x == y
    case Err(e) => err == Some(e)
  }

  /** The signature loop of processModule. */
  method SignaturesM(gen: FactGenerator, es: seq<Signatures.SigEntry>, name: string)
    returns (matched: bool, err: Option<string>)
    requires gen.Valid()
    modifies gen
    ensures gen.Valid() && gen.ctx == old(gen.ctx)
    ensures Reached(SigLoop(gen.host, old(gen.St()), es, name, false), err, gen.St(), matched)
  {
    matched := false;
    var i := 0;
    while i < |es|
      invariant i <= |es|
      invariant gen.Valid() && gen.ctx == old(gen.ctx)
      invariant SigLoop(gen.host, old(gen.St()), es, name, false) == SigLoop(gen.host, gen.St(), es[i..], name, matched)
    {
      assert es[i..][1..] == es[i + 1..];
      var search := name;
      if Demangler.IsItaniumEncoding(name) {
        search := Demangler.Demangle(gen.host, name);
      }
      if gen.host.regexSearch(search, es[i].pattern) {
        err := Signatures.EmitSignatures(gen, name, es[i].sigs);
        if err.Some? {
          return;
        }
        matched := true;
      }
      i := i + 1;
    }
    err := None;
  }

  /** The predecessor loop. */
  method PredsM(gen: FactGenerator, bbRef: string, preds: seq<Value>)
    requires gen.Valid()
    modifies gen, gen.ctx
    ensures gen.Valid() && gen.ctx == old(gen.ctx)
    ensures gen.St() == Preds(gen.graph, old(gen.St()), bbRef, preds)
  {
    var i := 0;
    while i < |preds|
      invariant i <= |preds|
      invariant gen.Valid() && gen.ctx == old(gen.ctx)
      invariant Preds(gen.graph, old(gen.St()), bbRef, preds) == Preds(gen.graph, gen.St(), bbRef, preds[i..])
    {
      assert preds[i..][1..] == preds[i + 1..];
      var p := gen.BlockRefmode(preds[i]);
      gen.WriteFact("block::predecessor", [bbRef, p]);
      i := i + 1;
    }
  }

  method TargetM(gen: FactGenerator, I: Instruction, iref: string)
    requires gen.Valid()
    modifies gen, gen.ctx
    ensures gen.Valid() && gen.ctx == old(gen.ctx)
    ensures gen.St() == Target(gen.graph, old(gen.St()), I, iref)
  {
    if !IsVoid(gen.graph, I.self.ty) {
      var t := gen.ValueRefmode(I.self);
      gen.WriteFact("instr::assigns_to", [iref, t]);
      gen.RecordVariable(t, I.self.ty);
      gen.InsertResult(t, I.self.id);
    }
  }

  method InstrHeadM(gen: FactGenerator, I: Instruction, b: Value, prev: Option<string>, funcref: string, iref: string)
    requires gen.Valid()
    modifies gen, gen.ctx
    ensures gen.Valid() && gen.ctx == old(gen.ctx)
    ensures gen.St() == InstrHead(gen.graph, old(gen.St()), I, b, prev, funcref, iref)
  {
    gen.InsertResult(iref, I.self.id);
    TargetM(gen, I, iref);
    if prev.Some? {
      gen.WriteFact("instr::successor", [prev.value, iref]);
    }
    gen.WriteFact("instr::func", [iref, funcref]);
    var bbe := gen.BlockRefmode(b);
    gen.WriteFact("instr::bb_entry", [iref, bbe]);
  }

  /** The metadata loop. */
  method PositionsM(gen: FactGenerator, iref: string, I: Instruction)
    requires gen.Valid()
    modifies gen
    ensures gen.Valid() && gen.ctx == old(gen.ctx)
    ensures gen.St() == Positions(old(gen.St()), iref, I, I.mdCount)
  {
    var i := 0;
    while i < I.mdCount
      invariant i <= I.mdCount
      invariant gen.Valid() && gen.ctx == old(gen.ctx)
      invariant Positions(old(gen.St()), iref, I, I.mdCount) == Positions(gen.St(), iref, I, I.mdCount - i)
    {
      if I.debugLoc.Some? {
        gen.WriteFact("instr::pos", [iref, NatToString(I.debugLoc.value.line), NatToString(I.debugLoc.value.col)]);
      }
      i := i + 1;
    }
  }

  method InstrM(gen: FactGenerator, I: Instruction, b: Value, prev: Option<string>, funcref: string)
    returns (iref: string, err: Option<string>)
    requires gen.Valid()
    modifies gen, gen.ctx
    ensures gen.Valid() && gen.ctx == old(gen.ctx)
    ensures Reached(InstrStep(gen.graph, gen.host, old(gen.St()), I, b, prev, funcref), err, gen.St(), iref)
  {
    gen.EnterContext(InstrA(I.self));
    iref := gen.InstructionRefmode();
    err := InstrInsideM(gen, I, b, prev, funcref, iref);
    if err.Some? {
      return;
    }
    InstrFrameCloses(old(gen.St()), I.self, gen.St());
    gen.ExitContext();
  }

  method InstrInsideM(gen: FactGenerator, I: Instruction, b: Value, prev: Option<string>, funcref: string,
                      iref: string) returns (err: Option<string>)
    requires gen.Valid()
    modifies gen, gen.ctx
    ensures gen.Valid() && gen.ctx == old(gen.ctx)
    ensures Instructions.Outcome(InstrInside(gen.graph, gen.host, old(gen.St()), I, b, prev, funcref, iref), err, gen.St())
  {
    InstrHeadM(gen, I, b, prev, funcref, iref);
    err := Instructions.VisitM(gen, I);
    if err.Some? {
      return;
    }
    PositionsM(gen, iref, I);
  }

  /** The instruction loop of one block. */
  method InstrsM(gen: FactGenerator, b: Block, prev: Option<string>, funcref: string)
    returns (last: Option<string>, err: Option<string>)
    requires gen.Valid()
    modifies gen, gen.ctx
    ensures gen.Valid() && gen.ctx == old(gen.ctx)
    ensures Reached(Instrs(gen.graph, gen.host, old(gen.St()), b.self, b.instrs, prev, funcref), err, gen.St(), last)
  {
    last := prev;
    var i := 0;
    while i < |b.instrs|
      invariant i <= |b.instrs|
      invariant gen.Valid() && gen.ctx == old(gen.ctx)
      invariant Instrs(gen.graph, gen.host, old(gen.St()), b.self, b.instrs, prev, funcref)
             == Instrs(gen.graph, gen.host, gen.St(), b.self, b.instrs[i..], last, funcref)
    {
      assert b.instrs[i..][1..] == b.instrs[i + 1..];
      var iref;
      iref, err := InstrM(gen, b.instrs[i], b.self, last, funcref);
      if err.Some? {
        return;
      }
      last := Some(iref);
      i := i + 1;
    }
    err := None;
  }

  method BlockM(gen: FactGenerator, b: Block, fname: string, funcref: string, prev: Option<string>)
    returns (last: Option<string>, err: Option<string>)
    requires gen.Valid()
    modifies gen, gen.ctx
    ensures gen.Valid() && gen.ctx == old(gen.ctx)
    ensures Reached(BlockStep(gen.graph, gen.host, old(gen.St()), b, fname, funcref, prev), err, gen.St(), last)
  {
    last := prev;
    gen.EnterContext(BlockA(b.self));
    last, err := BlockInsideM(gen, b, fname, funcref, prev);
    if err.Some? {
      return;
    }
    BlockFrameCloses(old(gen.St()), b.self, gen.St());
    gen.ExitContext();
  }

  method BlockInsideM(gen: FactGenerator, b: Block, fname: string, funcref: string, prev: Option<string>)
    returns (last: Option<string>, err: Option<string>)
    requires gen.Valid()
    modifies gen, gen.ctx
    ensures gen.Valid() && gen.ctx == old(gen.ctx)
    ensures Reached(BlockInside(gen.graph, gen.host, old(gen.St()), b, fname, funcref, prev), err, gen.St(), last)
  {
    last := prev;
    var bbRef := gen.BlockRefmode(b.self);
    err := BlockLabelM(gen, bbRef, fname);
    if err.Some? {
      return;
    }
    PredsM(gen, bbRef, b.preds);
    last, err := InstrsM(gen, b, prev, funcref);
  }

  method BlockLabelM(gen: FactGenerator, bbRef: string, fname: string) returns (err: Option<string>)
    requires gen.Valid()
    modifies gen
    ensures gen.Valid() && gen.ctx == old(gen.ctx)
    ensures Instructions.Outcome(BlockLabel(old(gen.St()), bbRef, fname), err, gen.St())
  {
    gen.WriteFact("variable::id", [bbRef]);
    gen.WriteFact("variable::type", [bbRef, "label"]);
    gen.WriteFact("variable::in_func", [bbRef, fname]);
    var k := Variables.LastSigil(bbRef);
    if k.None? {
      return Some(SubstrOutOfRange);
    }
    gen.WriteFact("variable::name", [bbRef, bbRef[k.value..]]);
    err := None;
  }

  /** The block loop of one function. */
  method BlocksM(gen: FactGenerator, bs: seq<Block>, fname: string, funcref: string)
    returns (err: Option<string>)
    requires gen.Valid()
    modifies gen, gen.ctx
    ensures gen.Valid() && gen.ctx == old(gen.ctx)
    ensures Instructions.Outcome(Blocks(gen.graph, gen.host, old(gen.St()), bs, fname, funcref, None), err, gen.St())
  {
    var prev: Option<string> := None;
    var i := 0;
    while i < |bs|
      invariant i <= |bs|
      invariant gen.Valid() && gen.ctx == old(gen.ctx)
      invariant Blocks(gen.graph, gen.host, old(gen.St()), bs, fname, funcref, None)
             == Blocks(gen.graph, gen.host, gen.St(), bs[i..], fname, funcref, prev)
    {
      assert bs[i..][1..] == bs[i + 1..];
      prev, err := BlockM(gen, bs[i], fname, funcref, prev);
      if err.Some? {
        return;
      }
      i := i + 1;
    }
    err := None;
  }

  method FunctionM(gen: FactGenerator, o: Options, es: seq<Signatures.SigEntry>, f: Function)
    returns (err: Option<string>)
    requires gen.Valid() && gen.ctx.St().iFunctionCtx.None? && Walks(o.walk)
    modifies gen, gen.ctx
    ensures gen.Valid() && gen.ctx == old(gen.ctx)
    ensures Instructions.Outcome(FunctionStep(gen.graph, gen.host, o, old(gen.St()), es, f), err, gen.St())
  {
    ghost var s := gen.St();
    gen.EnterContext(FunctionA(f));
    err := FunctionInsideM(gen, o, es, f, s);
    if err.Some? {
      return;
    }
    EnterLeave(s, FunctionA(f), gen.St());
    gen.ExitContext();
  }

  method FunctionInsideM(gen: FactGenerator, o: Options, es: seq<Signatures.SigEntry>, f: Function, ghost s: GenState)
    returns (err: Option<string>)
    requires gen.Valid() && WellFormed(s.ctx) && s.ctx.iFunctionCtx.None? && Walks(o.walk)
    requires gen.St() == Enter(s, FunctionA(f))
    modifies gen, gen.ctx
    ensures gen.Valid() && gen.ctx == old(gen.ctx)
    ensures Instructions.Outcome(FunctionInside(gen.graph, gen.host, o, s, es, f), err, gen.St())
  {
    ghost var s1 := gen.St();
    var funcref := gen.FunctionRefmode(f);
    gen.InsertResult(funcref, f.self.id);
    Functions.WriteFunctionM(gen, o.variant, f, funcref);
    ghost var s2 := gen.St();
    assert (funcref, s2) == Opened(gen.graph, gen.host, o, s, f);
    var matched;
    matched, err := SignaturesM(gen, es, f.self.name);
    if err.Some? {
      return;
    }
    ghost var s3 := gen.St();
    FollowsTrans(s1, s2, s3);
    if matched {
      return;
    }
    PushFunction(s.ctx, f);
    SameStackKeeps(s1.ctx, s3.ctx);
    err := FunctionBodyM(gen, o, f, funcref);
  }

  method FunctionBodyM(gen: FactGenerator, o: Options, f: Function, funcref: string) returns (err: Option<string>)
    requires gen.Valid() && ActiveFunction(gen.ctx.St()).Some? && Walks(o.walk)
    modifies gen, gen.ctx
    ensures gen.Valid() && gen.ctx == old(gen.ctx)
    ensures Instructions.Outcome(FunctionBody(gen.graph, gen.host, o, old(gen.St()), f, funcref), err, gen.St())
  {
    ghost var s3 := gen.St();
    err := BlocksM(gen, f.blocks, f.self.name, funcref);
    if err.Some? {
      return;
    }
    ghost var s4 := gen.St();
    SameStackKeeps(s3.ctx, s4.ctx);
    var order := o.walk(gen.variableTypes);
    Variables.WriteLocalVariables(gen, order);
    Variables.LocalVariablesShape(gen.graph, s4, order, gen.St());
  }

  /** The function loop of processModule. */
  method FunctionsM(gen: FactGenerator, o: Options, es: seq<Signatures.SigEntry>, fs: seq<Function>)
    returns (err: Option<string>)
    requires gen.Valid() && gen.ctx.St().iFunctionCtx.None? && Walks(o.walk)
    modifies gen, gen.ctx
    ensures gen.Valid() && gen.ctx == old(gen.ctx)
    ensures Instructions.Outcome(FunctionsLoop(gen.graph, gen.host, o, old(gen.St()), es, fs), err, gen.St())
  {
    var i := 0;
    while i < |fs|
      invariant i <= |fs|
      invariant gen.Valid() && gen.ctx == old(gen.ctx) && gen.ctx.St().iFunctionCtx.None?
      invariant FunctionsLoop(gen.graph, gen.host, o, old(gen.St()), es, fs)
             == FunctionsLoop(gen.graph, gen.host, o, gen.St(), es, fs[i..])
    {
      assert fs[i..][1..] == fs[i + 1..];
      err := FunctionM(gen, o, es, fs[i]);
      if err.Some? {
        return;
      }
      i := i + 1;
    }
    err := None;
  }

  /** The global variable loop of processModule. */
  method GlobalsM(gen: FactGenerator, gvs: seq<GlobalVar>)
    requires gen.Valid()
    modifies gen, gen.ctx
    ensures gen.Valid() && gen.ctx == old(gen.ctx)
    ensures gen.St() == GlobalsLoop(gen.graph, gen.host, old(gen.St()), gvs)
  {
    var i := 0;
    while i < |gvs|
      invariant i <= |gvs|
      invariant gen.Valid() && gen.ctx == old(gen.ctx)
      invariant GlobalsLoop(gen.graph, gen.host, old(gen.St()), gvs) == GlobalsLoop(gen.graph, gen.host, gen.St(), gvs[i..])
    {
      assert gvs[i..][1..] == gvs[i + 1..];
      var id := gen.GlobalValueRefmode(gvs[i].self);
      Globals.WriteGlobalVarM(gen, gvs[i], id);
      i := i + 1;
    }
  }

  /** The alias loop of processModule. */
  method AliasesM(gen: FactGenerator, als: seq<Alias>)
    requires gen.Valid()
    modifies gen, gen.ctx
    ensures gen.Valid() && gen.ctx == old(gen.ctx)
    ensures gen.St() == AliasesLoop(gen.graph, gen.host, old(gen.St()), als)
  {
    var i := 0;
    while i < |als|
      invariant i <= |als|
      invariant gen.Valid() && gen.ctx == old(gen.ctx)
      invariant AliasesLoop(gen.graph, gen.host, old(gen.St()), als) == AliasesLoop(gen.graph, gen.host, gen.St(), als[i..])
    {
      assert als[i..][1..] == als[i + 1..];
      var id := gen.GlobalValueRefmode(als[i].self);
      Globals.WriteGlobalAliasM(gen, als[i], id);
      i := i + 1;
    }
  }

  /** processModule on the generator object. The module is entered first;
      exitModule does nothing. */
  method ProcessModuleM(gen: FactGenerator, m: Module, path: string, o: Options) returns (err: Option<string>)
    requires Walks(o.walk)
    modifies gen
    ensures gen.Valid()
    ensures Instructions.Outcome(
              ProcessModule(gen.graph, gen.host, o,
                            GenState(old(gen.facts), Initial(path), old(gen.variableTypes), old(gen.types), old(gen.resultMap)),
                            path, m),
              err, gen.St())
  {
    gen.EnterModule(path);
    var es: seq<Signatures.SigEntry> := [];
    if o.signatures.Some? {
      var r := Signatures.PreprocessSignatures(gen.host.regexError, o.signatures.value.0, o.signatures.value.1);
      if r.Err? {
        return Some(r.msg);
      }
      es := r.value;
    }
    InitialShape(path);
    err := ModuleBodyM(gen, o, es, m);
    gen.ExitModule();
  }

  method ModuleBodyM(gen: FactGenerator, o: Options, es: seq<Signatures.SigEntry>, m: Module) returns (err: Option<string>)
    requires gen.Valid() && gen.ctx.St().iFunctionCtx.None? && Walks(o.walk)
    modifies gen, gen.ctx
    ensures gen.Valid() && gen.ctx == old(gen.ctx)
    ensures Instructions.Outcome(ModuleBody(gen.graph, gen.host, o, old(gen.St()), es, m), err, gen.St())
  {
    ghost var s := gen.St();
    GlobalsM(gen, m.globals);
    SameStackKeeps(s.ctx, gen.ctx.St());
    ghost var s1 := gen.St();
    AliasesM(gen, m.aliases);
    SameStackKeeps(s1.ctx, gen.ctx.St());
    gen.WriteFact("user::options", ["context_sensitivity", ContextSensitivities.ToString(o.sensitivity)]);
    err := FunctionsM(gen, o, es, m.functions);
  }
}
