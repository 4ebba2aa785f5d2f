// The context manager of the refmode engine: a stack of frames, one per IR
// container the generator is inside (the module root, a function, a block,
// an instruction), an instruction counter, a per-instruction constant slot
// counter and the position of the active function frame.
// The pure functions on `CtxState` are the specification; the class
// `ContextManager` updates its fields in place and is proved against them.
module Contexts {
  import opened Common
  import opened Llvm

  /** The IR object a frame was pushed for. */
  datatype Anchor =
    | FunctionA(f: Function)
    | BlockA(b: Value)
    | InstrA(i: Value)
    | OtherA(v: Value)

  /** One frame: its anchor (None for the module root), the prefix it
      contributes to qualified names, and the slot numbering of the unnamed
      values of its function, filled lazily. */
  datatype Frame = Frame(anchor: Option<Anchor>, prefix: string, numbering: map<ValueId, nat>) {
    predicate IsFunction() { anchor.Some? && anchor.value.FunctionA? }
  }

  /** The whole state of a context manager. `iFunctionCtx` is None where the
      source holds SIZE_MAX. */
  datatype CtxState = CtxState(
    contexts: seq<Frame>,
    iFunctionCtx: Option<nat>,
    instrIndex: nat,
    constantIndex: nat)

  /** The shape every reachable state has: a root frame without anchor at the
      bottom, anchored frames above it, and a function marker that points at
      a function frame. */
  ghost predicate WellFormed(s: CtxState) {
    && |s.contexts| >= 1
    && s.contexts[0].anchor.None?
    && (forall i :: 1 <= i < |s.contexts| ==> s.contexts[i].anchor.Some?)
    && (s.iFunctionCtx.Some? ==>
          s.iFunctionCtx.value < |s.contexts| && s.contexts[s.iFunctionCtx.value].IsFunction())
  }

  /** The root prefix of a module read from `path`. */
  function RootPrefix(path: string): string { "<" + path + ">" }

  /** The state right after construction. */
  function Initial(path: string): CtxState {
    CtxState([Frame(None, RootPrefix(path), map[])], None, 0, 0)
  }

  /** The prefix a frame for `a` contributes, given the instruction index. */
  function AnchorPrefix(a: Anchor, instrIndex: nat): string {
    match a
    case FunctionA(f) => f.self.name
    case BlockA(b) => b.name
    case InstrA(_) => NatToString(instrIndex)
    case OtherA(_) => ""
  }

  /** pushContext: a function frame resets the instruction index and becomes
      the function frame; an instruction frame takes the instruction index as
      prefix, advances it and resets the constant counter. */
  function Push(s: CtxState, a: Anchor): CtxState {
    var top := Frame(Some(a), AnchorPrefix(a, s.instrIndex), map[]);
    match a
    case FunctionA(_) =>
      s.(contexts := s.contexts + [top], instrIndex := 0, iFunctionCtx := Some(|s.contexts|))
    case InstrA(_) =>
      s.(contexts := s.contexts + [top], instrIndex := s.instrIndex + 1, constantIndex := 0)
    case _ =>
      s.(contexts := s.contexts + [top])
  }

  /** popContext: drops the top frame, clearing the function marker when that
      frame is a function frame. */
  function Pop(s: CtxState): CtxState
    requires |s.contexts| >= 1
  {
    var n := |s.contexts|;
    if s.contexts[n - 1].IsFunction() then
      s.(contexts := s.contexts[..n - 1], iFunctionCtx := None)
    else
      s.(contexts := s.contexts[..n - 1])
  }

  /** constantCount: the current slot, and the state with the slot advanced. */
  function NextConstant(s: CtxState): (nat, CtxState) {
    (s.constantIndex, s.(constantIndex := s.constantIndex + 1))
  }

  /** functionContext: the frame the marker points at, when it is a function
      frame. */
  function FunctionFrame(s: CtxState): (r: Option<Frame>)
    ensures r.Some? ==> r.value.IsFunction()
  {
    match s.iFunctionCtx
    case None => None
    case Some(k) =>
      // k is always on the stack in a well-formed state
      if k < |s.contexts| && s.contexts[k].IsFunction() then Some(s.contexts[k]) else None
  }

  /** The function anchoring the active function frame, if any. */
  function ActiveFunction(s: CtxState): Option<Function> {
    match FunctionFrame(s)
    case None => None
    case Some(fr) => Some(fr.anchor.value.f)
  }

  // ---------------------------------------------------------------------
  // Properties of the specification
  // ---------------------------------------------------------------------

  /** Construction leaves exactly one frame: the anchorless root with prefix
      "<path>", which is not a function frame, and no active function. */
  lemma InitialShape(path: string)
    ensures WellFormed(Initial(path))
    ensures |Initial(path).contexts| == 1
    ensures Initial(path).contexts[0].prefix == "<" + path + ">"
    ensures !Initial(path).contexts[0].IsFunction()
    ensures FunctionFrame(Initial(path)).None?
  {
  }

  /** Every push keeps the state well formed; every pop of a non-root frame
      does too. */
  lemma PushWellFormed(s: CtxState, a: Anchor)
    requires WellFormed(s)
    ensures WellFormed(Push(s, a))
  {
  }

  lemma PopWellFormed(s: CtxState)
    requires WellFormed(s) && |s.contexts| >= 2
    ensures WellFormed(Pop(s))
  {
  }

  /** Entering a function resets the instruction index and makes the new
      frame the active function frame. */
  lemma PushFunction(s: CtxState, f: Function)
    requires WellFormed(s)
    ensures Push(s, FunctionA(f)).instrIndex == 0
    ensures Push(s, FunctionA(f)).iFunctionCtx == Some(|s.contexts|)
    ensures FunctionFrame(Push(s, FunctionA(f))) == Some(Frame(Some(FunctionA(f)), f.self.name, map[]))
    ensures ActiveFunction(Push(s, FunctionA(f))) == Some(f)
  {
    PushWellFormed(s, FunctionA(f));
  }

  /** Entering an instruction: the prefix is the old instruction index in
      decimal, the index advances and the constant counter restarts. */
  lemma PushInstruction(s: CtxState, v: Value)
    ensures Push(s, InstrA(v)).contexts[|s.contexts|].prefix == NatToString(s.instrIndex)
    ensures Push(s, InstrA(v)).instrIndex == s.instrIndex + 1
    ensures Push(s, InstrA(v)).constantIndex == 0
    ensures Push(s, InstrA(v)).iFunctionCtx == s.iFunctionCtx
  {
  }

  /** Entering a block: the prefix is the block's name; counters and the
      function marker are untouched. */
  lemma PushBlock(s: CtxState, b: Value)
    ensures Push(s, BlockA(b)).contexts[|s.contexts|].prefix == b.name
    ensures Push(s, BlockA(b)).instrIndex == s.instrIndex
    ensures Push(s, BlockA(b)).constantIndex == s.constantIndex
    ensures Push(s, BlockA(b)).iFunctionCtx == s.iFunctionCtx
  {
  }

  /** Frames are LIFO: a pop undoes the frame part of the matching push and
      removes nothing else. */
  lemma PopUndoesPush(s: CtxState, a: Anchor)
    ensures Pop(Push(s, a)).contexts == s.contexts
  {
    assert Push(s, a).contexts[..|s.contexts|] == s.contexts;
  }

  /** Popping a function frame leaves no active function. */
  lemma PopFunctionClears(s: CtxState)
    requires WellFormed(s) && |s.contexts| >= 2
    requires s.contexts[|s.contexts| - 1].IsFunction()
    ensures FunctionFrame(Pop(s)).None?
  {
  }

  /** Popping a frame that is not a function frame keeps the active function. */
  lemma PopOtherKeepsFunction(s: CtxState)
    requires WellFormed(s) && |s.contexts| >= 2
    requires !s.contexts[|s.contexts| - 1].IsFunction()
    ensures FunctionFrame(Pop(s)) == FunctionFrame(s)
  {
  }

  /** The results of `n` successive constantCount calls and the final state. */
  function ConstantCounts(s: CtxState, n: nat): (r: (seq<nat>, CtxState))
    ensures |r.0| == n
    decreases n
  {
    if n == 0 then ([], s)
    else
      var (k, s1) := NextConstant(s);
      var (ks, s2) := ConstantCounts(s1, n - 1);
      ([k] + ks, s2)
  }

  /** Successive constantCount calls return c, c+1, …, c+n-1 and leave the
      counter at c+n; nothing else changes. */
  lemma {:induction false} ConstantCountsAscend(s: CtxState, n: nat)
    ensures forall i :: 0 <= i < n ==> ConstantCounts(s, n).0[i] == s.constantIndex + i
    ensures ConstantCounts(s, n).1 == s.(constantIndex := s.constantIndex + n)
    decreases n
  {
    if n > 0 {
      ConstantCountsAscend(s.(constantIndex := s.constantIndex + 1), n - 1);
    }
  }

  /** Hence the slots handed out inside one instruction start at 0 and never
      repeat. */
  lemma ConstantSlotsDistinct(s: CtxState, v: Value, n: nat)
    ensures forall i, j :: 0 <= i < j < n ==>
      ConstantCounts(Push(s, InstrA(v)), n).0[i] != ConstantCounts(Push(s, InstrA(v)), n).0[j]
    ensures n > 0 ==> ConstantCounts(Push(s, InstrA(v)), n).0[0] == 0
  {
    ConstantCountsAscend(Push(s, InstrA(v)), n);
  }

  // ---------------------------------------------------------------------
  // The mutable context manager
  // ---------------------------------------------------------------------

  class ContextManager {
    var contexts: seq<Frame>
    var iFunctionCtx: Option<nat>
    var instrIndex: nat
    var constantIndex: nat

    function St(): CtxState
      reads this
    {
      CtxState(contexts, iFunctionCtx, instrIndex, constantIndex)
    }

    ghost predicate Valid()
      reads this
    {
      WellFormed(St())
    }

    /** Pushes the root frame "<path>". */
    constructor (path: string)
      ensures St() == Initial(path)
      ensures Valid()
    {
      contexts := [Frame(None, "<" + path + ">", map[])];
      iFunctionCtx := None;
      instrIndex := 0;
      constantIndex := 0;
    }

    method PushContext(a: Anchor)
      requires Valid()
      modifies this
      ensures Valid()
      ensures St() == Push(old(St()), a)
    {
      var prefix := "";
      match a {
        case FunctionA(f) =>
          prefix := f.self.name;
          instrIndex := 0;
          iFunctionCtx := Some(|contexts|);
        case BlockA(b) =>
          prefix := b.name;
        case InstrA(_) =>
          prefix := NatToString(instrIndex);
          instrIndex := instrIndex + 1;
          constantIndex := 0;
        case OtherA(_) =>
      }
      contexts := contexts + [Frame(Some(a), prefix, map[])];
      PushWellFormed(old(St()), a);
    }

    /** Pops a frame pushed by PushContext; the root frame stays. */
    method PopContext()
      requires Valid() && |contexts| >= 2
      modifies this
      ensures Valid()
      ensures St() == Pop(old(St()))
    {
      if contexts[|contexts| - 1].IsFunction() {
        iFunctionCtx := None;
      }
      contexts := contexts[..|contexts| - 1];
      PopWellFormed(old(St()));
    }

    /** A read of the instruction index: no field changes. */
    method InstrCount() returns (n: nat)
      ensures n == St().instrIndex
    {
      n := instrIndex;
    }

    method ConstantCount() returns (k: nat)
      requires Valid()
      modifies this
      ensures Valid()
      ensures (k, St()) == NextConstant(old(St()))
    {
      k := constantIndex;
      constantIndex := constantIndex + 1;
    }

    method FunctionContext() returns (fr: Option<Frame>)
      requires Valid()
      ensures fr == FunctionFrame(St())
    {
      if iFunctionCtx.None? {
        fr := None;
      } else if contexts[iFunctionCtx.value].IsFunction() {
        fr := Some(contexts[iFunctionCtx.value]);
      } else {
        fr := None;
      }
    }

    /** Stores a lazily computed numbering in frame `k`. */
    method SetNumbering(k: nat, numbering: map<ValueId, nat>)
      requires Valid() && k < |contexts|
      modifies this
      ensures Valid()
      ensures St() == old(St()).(contexts := old(contexts)[k := old(contexts)[k].(numbering := numbering)])
    {
      contexts := contexts[k := contexts[k].(numbering := numbering)];
    }
  }
}
