// Slot numbers of the unnamed values of a function. One counter runs over
// the unnamed arguments, then over each block in layout order: the block
// itself when unnamed, followed by its unnamed instructions of non-void type.
module Numbering {
  import opened Common
  import opened Llvm

  /** Whether an instruction takes a slot. */
  predicate Numbered(g: TypeGraph, i: Instruction) {
    !HasName(i.self) && !IsVoid(g, i.self.ty)
  }

  /** The ids of the unnamed arguments, in order. */
  function ArgSlots(args: seq<Value>): seq<ValueId> {
    if |args| == 0 then []
    else
      var a := args[|args| - 1];
      ArgSlots(args[..|args| - 1]) + (if HasName(a) then [] else [a.id])
  }

  /** The ids of the instructions that take a slot, in order. */
  function InstrSlots(g: TypeGraph, instrs: seq<Instruction>): seq<ValueId> {
    if |instrs| == 0 then []
    else
      var i := instrs[|instrs| - 1];
      InstrSlots(g, instrs[..|instrs| - 1]) + (if Numbered(g, i) then [i.self.id] else [])
  }

  /** The slots of one block: the block when unnamed, then its instructions. */
  function BlockSlots(g: TypeGraph, b: Block): seq<ValueId> {
    (if HasName(b.self) then [] else [b.self.id]) + InstrSlots(g, b.instrs)
  }

  function BlocksSlots(g: TypeGraph, bs: seq<Block>): seq<ValueId> {
    if |bs| == 0 then [] else BlocksSlots(g, bs[..|bs| - 1]) + BlockSlots(g, bs[|bs| - 1])
  }

  /** Every id that takes a slot, in counter order. */
  function Slots(g: TypeGraph, f: Function): seq<ValueId> {
    ArgSlots(f.args) + BlocksSlots(g, f.blocks)
  }

  /** The map a counter loop builds: the k-th id is assigned k; an id that
      occurs twice keeps its later number. */
  function Assign(ids: seq<ValueId>): map<ValueId, nat> {
    if |ids| == 0 then map[] else Assign(ids[..|ids| - 1])[ids[|ids| - 1] := |ids| - 1]
  }

  /** computeNumbering's result for a function. */
  function NumberingOf(g: TypeGraph, f: Function): map<ValueId, nat> {
    Assign(Slots(g, f))
  }

  // ---------------------------------------------------------------------
  // The counter assignment
  // ---------------------------------------------------------------------

  /** The numbered ids are exactly the listed ids, each number is below the
      number of slots, and each id's number is a position holding that id. */
  lemma {:induction false} AssignFacts(ids: seq<ValueId>)
    ensures Assign(ids).Keys == set x | x in ids
    ensures forall x :: x in Assign(ids) ==> Assign(ids)[x] < |ids| && ids[Assign(ids)[x]] == x
  {
    if |ids| > 0 {
      var init := ids[..|ids| - 1];
      AssignFacts(init);
      assert ids == init + [ids[|ids| - 1]];
      forall x | x in Assign(ids)
        ensures Assign(ids)[x] < |ids| && ids[Assign(ids)[x]] == x
      {
        if x != ids[|ids| - 1] {
          assert ids[Assign(init)[x]] == init[Assign(init)[x]];
        }
      }
    }
  }

  /** Distinct numbered values never share a number. */
  lemma AssignInjective(ids: seq<ValueId>)
    ensures forall x, y :: x in Assign(ids) && y in Assign(ids) && x != y ==>
      Assign(ids)[x] != Assign(ids)[y]
  {
    AssignFacts(ids);
  }

  /** When no id repeats, the i-th id gets exactly i: the numbers are
      0, 1, …, k-1 in order. */
  lemma AssignConsecutive(ids: seq<ValueId>)
    requires forall i, j :: 0 <= i < j < |ids| ==> ids[i] != ids[j]
    ensures forall i :: 0 <= i < |ids| ==> ids[i] in Assign(ids) && Assign(ids)[ids[i]] == i
  {
    AssignFacts(ids);
  }

  // ---------------------------------------------------------------------
  // Which values take a slot
  // ---------------------------------------------------------------------

  lemma {:induction false} ArgSlotsMembers(args: seq<Value>, x: ValueId)
    ensures x in ArgSlots(args) <==> exists j :: 0 <= j < |args| && !HasName(args[j]) && args[j].id == x
  {
    if |args| > 0 {
      var init := args[..|args| - 1];
      ArgSlotsMembers(init, x);
      if exists j :: 0 <= j < |args| && !HasName(args[j]) && args[j].id == x {
        var j :| 0 <= j < |args| && !HasName(args[j]) && args[j].id == x;
        if j < |args| - 1 { assert init[j] == args[j]; }
      }
    }
  }

  lemma {:induction false} InstrSlotsMembers(g: TypeGraph, instrs: seq<Instruction>, x: ValueId)
    ensures x in InstrSlots(g, instrs) <==>
      exists j :: 0 <= j < |instrs| && Numbered(g, instrs[j]) && instrs[j].self.id == x
  {
    if |instrs| > 0 {
      var init := instrs[..|instrs| - 1];
      InstrSlotsMembers(g, init, x);
      if exists j :: 0 <= j < |instrs| && Numbered(g, instrs[j]) && instrs[j].self.id == x {
        var j :| 0 <= j < |instrs| && Numbered(g, instrs[j]) && instrs[j].self.id == x;
        if j < |instrs| - 1 { assert init[j] == instrs[j]; }
      }
    }
  }

  lemma {:induction false} BlocksSlotsMembers(g: TypeGraph, bs: seq<Block>, x: ValueId)
    ensures x in BlocksSlots(g, bs) <==> exists j :: 0 <= j < |bs| && x in BlockSlots(g, bs[j])
  {
    if |bs| > 0 {
      var init := bs[..|bs| - 1];
      BlocksSlotsMembers(g, init, x);
      if exists j :: 0 <= j < |bs| && x in BlockSlots(g, bs[j]) {
        var j :| 0 <= j < |bs| && x in BlockSlots(g, bs[j]);
        if j < |bs| - 1 { assert init[j] == bs[j]; }
      }
    }
  }

  /** The numbering of a function is injective and bounded by the number of
      slots; an id is numbered exactly when it is the id of an unnamed
      argument, an unnamed block or an unnamed non-void instruction, so a
      named value or a void instruction whose id no such value shares gets no
      number. */
  lemma NumberingFacts(g: TypeGraph, f: Function, x: ValueId)
    ensures forall y, z :: y in NumberingOf(g, f) && z in NumberingOf(g, f) && y != z ==>
      NumberingOf(g, f)[y] != NumberingOf(g, f)[z]
    ensures forall y :: y in NumberingOf(g, f) ==> NumberingOf(g, f)[y] < |Slots(g, f)|
    ensures x in NumberingOf(g, f) <==>
      || (exists j :: 0 <= j < |f.args| && !HasName(f.args[j]) && f.args[j].id == x)
      || (exists j :: 0 <= j < |f.blocks| && !HasName(f.blocks[j].self) && f.blocks[j].self.id == x)
      || (exists j, k :: 0 <= j < |f.blocks| && 0 <= k < |f.blocks[j].instrs|
            && Numbered(g, f.blocks[j].instrs[k]) && f.blocks[j].instrs[k].self.id == x)
  {
    AssignFacts(Slots(g, f));
    AssignInjective(Slots(g, f));
    ArgSlotsMembers(f.args, x);
    BlocksSlotsMembers(g, f.blocks, x);
    if x in BlocksSlots(g, f.blocks) {
      var j :| 0 <= j < |f.blocks| && x in BlockSlots(g, f.blocks[j]);
      InstrSlotsMembers(g, f.blocks[j].instrs, x);
    }
    forall j | 0 <= j < |f.blocks| && x in InstrSlots(g, f.blocks[j].instrs)
      ensures x in BlocksSlots(g, f.blocks)
    {
      assert x in BlockSlots(g, f.blocks[j]);
    }
    forall j, k | 0 <= j < |f.blocks| && 0 <= k < |f.blocks[j].instrs|
        && Numbered(g, f.blocks[j].instrs[k]) && f.blocks[j].instrs[k].self.id == x
      ensures x in InstrSlots(g, f.blocks[j].instrs)
    {
      InstrSlotsMembers(g, f.blocks[j].instrs, x);
    }
    forall j | 0 <= j < |f.blocks| && !HasName(f.blocks[j].self) && f.blocks[j].self.id == x
      ensures x in BlocksSlots(g, f.blocks)
    {
      assert x in BlockSlots(g, f.blocks[j]);
    }
  }

  /** With pairwise distinct slot ids the numbers are 0..k-1 in slot order. */
  lemma NumberingConsecutive(g: TypeGraph, f: Function)
    requires forall i, j :: 0 <= i < j < |Slots(g, f)| ==> Slots(g, f)[i] != Slots(g, f)[j]
    ensures forall i :: 0 <= i < |Slots(g, f)| ==>
      Slots(g, f)[i] in NumberingOf(g, f) && NumberingOf(g, f)[Slots(g, f)[i]] == i
  {
    AssignConsecutive(Slots(g, f));
  }

  /** One more slot: the counter's next value goes to `x`. */
  lemma AssignSnoc(ids: seq<ValueId>, x: ValueId)
    ensures Assign(ids + [x]) == Assign(ids)[x := |ids|]
  {
    assert (ids + [x])[..|ids|] == ids;
  }

  // ---------------------------------------------------------------------
  // The counter loops
  // ---------------------------------------------------------------------

  /** computeNumbering: one counter over the arguments, then over the
      blocks in order. */
  method ComputeNumbering(g: TypeGraph, f: Function) returns (numbering: map<ValueId, nat>)
    ensures numbering == NumberingOf(g, f)
  {
    var counter: nat;
    ghost var ids: seq<ValueId>;
    numbering, counter, ids := NumberArgs(f.args);
    numbering, counter, ids := NumberBlocks(g, f.blocks, numbering, counter, ids);
  }

  /** The block loop, continuing the counter after the arguments. */
  method NumberBlocks(g: TypeGraph, blocks: seq<Block>, numbering0: map<ValueId, nat>, counter0: nat,
                      ghost ids0: seq<ValueId>)
    returns (numbering: map<ValueId, nat>, counter: nat, ghost ids: seq<ValueId>)
    requires numbering0 == Assign(ids0) && counter0 == |ids0|
    ensures ids == ids0 + BlocksSlots(g, blocks)
    ensures numbering == Assign(ids) && counter == |ids|
  {
    numbering, counter, ids := numbering0, counter0, ids0;
    var b := 0;
    while b < |blocks|
      invariant 0 <= b <= |blocks|
      invariant ids == ids0 + BlocksSlots(g, blocks[..b])
      invariant numbering == Assign(ids) && counter == |ids|
    {
      ghost var before := ids;
      numbering, counter, ids := NumberBlock(g, blocks[b], numbering, counter, ids);
      BlocksSlotsStep(g, blocks, b, ids0, before, ids);
      b := b + 1;
    }
    assert blocks[..b] == blocks;
  }

  lemma BlocksSlotsStep(g: TypeGraph, blocks: seq<Block>, b: nat, ids0: seq<ValueId>, before: seq<ValueId>, after: seq<ValueId>)
    requires b < |blocks|
    requires before == ids0 + BlocksSlots(g, blocks[..b])
    requires after == before + BlockSlots(g, blocks[b])
    ensures after == ids0 + BlocksSlots(g, blocks[..b + 1])
  {
    assert blocks[..b + 1][..b] == blocks[..b];
    assert BlocksSlots(g, blocks[..b + 1]) == BlocksSlots(g, blocks[..b]) + BlockSlots(g, blocks[b]);
  }

  /** The argument loop: the unnamed arguments take slots 0, 1, 2, ... */
  method NumberArgs(args: seq<Value>) returns (numbering: map<ValueId, nat>, counter: nat, ghost ids: seq<ValueId>)
    ensures ids == ArgSlots(args)
    ensures numbering == Assign(ids) && counter == |ids|
  {
    numbering, counter, ids := map[], 0, [];
    var i := 0;
    while i < |args|
      invariant 0 <= i <= |args|
      invariant ids == ArgSlots(args[..i])
      invariant numbering == Assign(ids) && counter == |ids|
    {
      assert args[..i + 1][..i] == args[..i];
      if !HasName(args[i]) {
        AssignSnoc(ids, args[i].id);
        numbering := numbering[args[i].id := counter];
        ids := ids + [args[i].id];
        counter := counter + 1;
      }
      i := i + 1;
    }
    assert args[..i] == args;
  }

  /** The body of the block loop: the block itself, then its instructions,
      continuing the counter. */
  method NumberBlock(g: TypeGraph, bb: Block, numbering0: map<ValueId, nat>, counter0: nat,
                     ghost ids0: seq<ValueId>)
    returns (numbering: map<ValueId, nat>, counter: nat, ghost ids: seq<ValueId>)
    requires numbering0 == Assign(ids0) && counter0 == |ids0|
    ensures ids == ids0 + BlockSlots(g, bb)
    ensures numbering == Assign(ids) && counter == |ids|
  {
    numbering, counter, ids := numbering0, counter0, ids0;
    if !HasName(bb.self) {
      AssignSnoc(ids, bb.self.id);
      numbering := numbering[bb.self.id := counter];
      ids := ids + [bb.self.id];
      counter := counter + 1;
    }
    numbering, counter, ids := NumberInstrs(g, bb.instrs, numbering, counter, ids);
  }

  /** The instruction loop of one block: the unnamed non-void instructions
      take the next slots. */
  method NumberInstrs(g: TypeGraph, instrs: seq<Instruction>, numbering0: map<ValueId, nat>, counter0: nat,
                      ghost ids0: seq<ValueId>)
    returns (numbering: map<ValueId, nat>, counter: nat, ghost ids: seq<ValueId>)
    requires numbering0 == Assign(ids0) && counter0 == |ids0|
    ensures ids == ids0 + InstrSlots(g, instrs)
    ensures numbering == Assign(ids) && counter == |ids|
  {
    numbering, counter, ids := numbering0, counter0, ids0;
    var k := 0;
    while k < |instrs|
      invariant 0 <= k <= |instrs|
      invariant ids == ids0 + InstrSlots(g, instrs[..k])
      invariant numbering == Assign(ids) && counter == |ids|
    {
      assert instrs[..k + 1][..k] == instrs[..k];
      var instr := instrs[k];
      if !HasName(instr.self) && !IsVoid(g, instr.self.ty) {
        AssignSnoc(ids, instr.self.id);
        numbering := numbering[instr.self.id := counter];
        ids := ids + [instr.self.id];
        counter := counter + 1;
      }
      k := k + 1;
    }
    assert instrs[..k] == instrs;
  }
}
