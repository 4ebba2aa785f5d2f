# cclyzer++ FactGenerator, modelled in Dafny

cclyzer++ is a points-to analysis for LLVM bitcode written in Datalog. Its
FactGenerator walks an LLVM module and writes it out as Datalog facts:
globals and aliases, functions and their attributes, basic blocks,
instructions, constants, inline assembly, the types reachable from the
module, and the module's debug-info metadata. Each entity is named by a
*refmode*, a string built from the stack of contexts the generator is in
(module, function, basic block, instruction index, constant index). The
facts go to one table per predicate.

This project models that core as Dafny values, functions and classes, and
proves properties of it:

- `Contexts`: the context stack and the counters of the refmode engine.
  `Contexts.ContextManager` holds the stack as a class whose methods
  update it in place.
- `Refmodes`, `Numbering`: how refmodes are built and how unnamed values
  are numbered.
- `Types`, `TypeClosure`, `TypeVisitor`: the type closure the generator
  accumulates, and the facts written for each kind of type.
- `Constants`, `Assembly`, `Globals`, `Functions`, `Variables`,
  `Instructions`: the facts for each kind of IR entity. Instructions are
  modelled as per-opcode templates (`Instructions.Plan`), interpreted by
  `Instructions.RunSteps`.
- `DebugNodes`, `DebugRecord`: the debug-info writers as templates, and
  the recorder. The recorder writes every metadata node once, keeps a memo
  cache of node ids, and associates local variables with their values.
- `Generator`, `FactGen`: the `FactGenerator` class and the driver that
  visits a module in the source's order.
- `Signatures`: substitution of function signatures.
- `ContextSensitivities`: parsing and printing of the context-sensitivity
  setting.
- `Stats`: the helpers of the statistics script.
- `LlvmEnums`, `Listings`, `Demangler`, `Common`: enumeration tables,
  fact listings and shared helpers.
- `Llvm`: the LLVM entities the generator reads, as values.

Some functions come from libraries whose code is not part of this model:
value and type printing, the demangler, regular-expression search, string
hashing, and the strings LLVM gives for flags, DWARF tags and
virtualities. The model takes them as the function-typed fields of
`Llvm.Host`, so every result holds for any such library. Likewise, the
walk order of the type-closure set, the module's metadata count and the
options of a run (`FactGen.Options`) are inputs.

The model follows the code wherever the code and the project's
description of it disagree. The documentation of signature files says
that the first matching entry wins. The code applies every entry whose
regular expression matches, in the parsed JSON object's iteration order,
not file order (FactGenerator.cpp:126-140).
`FactGen.SigLoop` models that, and `FactGen.SigLoopMatched` states it.

## Model

| member | source | states |
|---|---|---|
| Common.NatToString | FactGenerator/src/ContextManager.hpp:75 | the decimal text of an index is a non-empty run of digits |
| Common.NatToStringRoundTrip | FactGenerator/src/ContextManager.hpp:75 | reading the digits back yields the index, so the text loses nothing |
| Common.NatToStringInjective | FactGenerator/src/ContextManager.hpp:75 | distinct instruction indices give distinct frame prefixes |
| Common.IntToString | FactGenerator/src/Signatures.cpp:68-80 | the text of a signed integer is non-empty and starts with '-' exactly when the integer is negative |
| Common.IntToStringInjective | FactGenerator/src/Signatures.cpp:68-80 | distinct integers print differently |
| Common.FindLastOf | FactGenerator/src/Variables.cpp:23-27 | a found position holds one of the sought characters and no later one does; None means none occurs at all |
| LlvmEnums.CallingConvName | FactGenerator/src/LlvmEnums.cpp:14-51 | exactly the twelve listed conventions get a (non-empty) name; C and unlisted ones are left unspecified |
| LlvmEnums.CallingConvNamesDistinct | FactGenerator/src/LlvmEnums.cpp:14-51 | every listed name, including the literal "tx_device", leads back to its one convention, so the names are pairwise distinct |
| LlvmEnums.ThreadLocalModeName | FactGenerator/src/LlvmEnums.cpp:63-83 | the name is empty exactly for NotThreadLocal |
| LlvmEnums.ThreadLocalModeRoundTrip | FactGenerator/src/LlvmEnums.cpp:63-83 | each valid mode is recovered from its name; invalid ones map to "<invalid tlm>" |
| LlvmEnums.LinkageName | FactGenerator/src/LlvmEnums.cpp:90-131 | every linkage name is non-empty |
| LlvmEnums.LinkageRoundTrip | FactGenerator/src/LlvmEnums.cpp:90-131 | each of the eleven kinds is recovered from its name; invalid ones map to "<invalid linkage>" |
| LlvmEnums.LinkageNamesInjective | FactGenerator/src/llvm_enums.cpp:88-121 | two valid linkage kinds share a name only when they are equal |
| LlvmEnums.VisibilityName | FactGenerator/src/LlvmEnums.cpp:139-157 | default, hidden and protected, and only they, map to "default", "hidden" and "protected" |
| LlvmEnums.AtomicOrderingName | FactGenerator/src/LlvmEnums.cpp:169-221 | the name is empty exactly for NotAtomic |
| LlvmEnums.AtomicOrderingRoundTrip | FactGenerator/src/LlvmEnums.cpp:169-221 | each valid ordering is recovered from its name; invalid ones map to "<invalid atomic ordering>" |
| Contexts.FunctionFrame | FactGenerator/src/ContextManager.hpp:117-124 | the frame returned, if any, is a function frame |
| Contexts.InitialShape | FactGenerator/src/ContextManager.hpp:46-54 | construction leaves one well-formed anchorless root frame "<path>" that is not a function frame, and no active function |
| Contexts.PushWellFormed | FactGenerator/src/ContextManager.hpp:62-80 | every push keeps the stack well formed |
| Contexts.PopWellFormed | FactGenerator/src/ContextManager.hpp:83-89 | popping a non-root frame keeps the stack well formed |
| Contexts.PushFunction | FactGenerator/src/ContextManager.hpp:68-71 | entering a function resets the instruction index and makes the new frame the active function frame |
| Contexts.PushInstruction | FactGenerator/src/ContextManager.hpp:74-77 | an instruction frame's prefix is the old index in decimal; the index advances, the slot counter restarts at 0 |
| Contexts.PushBlock | FactGenerator/src/ContextManager.hpp:72-73 | a block frame's prefix is the block name; both counters and the function marker are unchanged |
| Contexts.PopUndoesPush | FactGenerator/src/ContextManager.hpp:79-88 | a pop removes exactly the frame the matching push added |
| Contexts.PopFunctionClears | FactGenerator/src/ContextManager.hpp:84-86 | after popping a function frame there is no active function |
| Contexts.PopOtherKeepsFunction | FactGenerator/src/ContextManager.hpp:83-89 | popping any other frame keeps the active function frame |
| Contexts.ConstantCounts | FactGenerator/src/ContextManager.hpp:112 | n successive constantCount calls return n slots |
| Contexts.ConstantCountsAscend | FactGenerator/src/ContextManager.hpp:112 | successive calls return c, c+1, …, c+n-1 and leave the counter at c+n, changing nothing else |
| Contexts.ConstantSlotsDistinct | FactGenerator/src/ContextManager.hpp:112 | slots handed out inside one instruction start at 0 and never repeat |
| Contexts.ContextManager.constructor | FactGenerator/src/ContextManager.hpp:46-54 | the new manager is in the initial state with the root frame "<path>" |
| Contexts.ContextManager.PushContext | FactGenerator/src/ContextManager.hpp:62-80 | the fields become the specified push of the old state, and stay well formed |
| Contexts.ContextManager.PopContext | FactGenerator/src/ContextManager.hpp:83-89 | the fields become the specified pop of the old state, and stay well formed |
| Contexts.ContextManager.InstrCount | FactGenerator/src/ContextManager.hpp:109-111 | returns the instruction index and changes nothing |
| Contexts.ContextManager.ConstantCount | FactGenerator/src/ContextManager.hpp:112 | returns the slot counter and advances it by one, nothing else |
| Contexts.ContextManager.FunctionContext | FactGenerator/src/ContextManager.hpp:117-124 | returns the active function frame, or None when the marker is unset or points at a non-function frame |
| Contexts.ContextManager.SetNumbering | FactGenerator/src/RefmodeEngineImpl.cpp:45-58 | stores a lazily computed numbering in one frame and changes nothing else |
| Refmodes.TrimLeft | FactGenerator/src/RefmodeEngineImpl.cpp:63-66 | the result is a suffix of the text that does not start with whitespace, and only whitespace was dropped |
| Refmodes.TrimRight | FactGenerator/src/RefmodeEngineImpl.cpp:63-66 | the result is a prefix of the text that does not end with whitespace, and only whitespace was dropped |
| Refmodes.TrimFacts | FactGenerator/src/RefmodeEngineImpl.cpp:63-68 | trimming leaves an already trimmed text alone, is idempotent, and its result has no surrounding whitespace |
| Refmodes.WithContextNoAnchor | FactGenerator/src/RefmodeEngineImpl.hpp:58-75 | with no frame anchored by the target class, withContext writes `prefix:` of every frame except skipped block frames |
| Refmodes.WithContextStops | FactGenerator/src/RefmodeEngineImpl.hpp:58-75 | with a first frame k anchored by the target class, withContext writes the non-skipped prefixes of frames 0..k and nothing after k |
| Refmodes.WithContextShape | FactGenerator/src/RefmodeEngineImpl.hpp:58-75 | qualified prefixes depend only on the frames' anchors and prefixes, not on numberings or counters |
| Refmodes.InnermostFunction | FactGenerator/src/RefmodeEngineImpl.cpp:46-49 | the frame found is a function frame with no function frame above it; None means there is no function frame at all |
| Refmodes.RefmodeOf | FactGenerator/src/RefmodeEngineImpl.cpp:18-69 | computing a value's text changes at most frame numberings: frames, counters and the function marker stay |
| Refmodes.SlotRefmode | FactGenerator/src/RefmodeEngineImpl.cpp:45-58 | the lazy numbering of an unnamed local value changes at most frame numberings |
| Refmodes.NumberingUpdateShape | FactGenerator/src/RefmodeEngineImpl.cpp:50-53 | storing a numbering in a frame changes nothing but numberings |
| Refmodes.SlotTextTrimmed | FactGenerator/src/RefmodeEngineImpl.cpp:55-66 | a slot text "%N" is unaffected by trimming |
| Refmodes.NamedRefmode | FactGenerator/src/RefmodeEngineImpl.cpp:22-25 | a named value's text is '@' plus its name for global values and '%' plus its name otherwise, and the state is unchanged |
| Refmodes.UnnamedLocalRefmode | FactGenerator/src/RefmodeEngineImpl.cpp:45-58 | an unnamed local value in a function whose frame has no numbering yet gets "%N" with N its computeNumbering slot, and the frame keeps that numbering |
| Refmodes.NumberedLocalRefmode | FactGenerator/src/RefmodeEngineImpl.cpp:49-56 | once a frame is numbered, later lookups read the stored number and leave the state unchanged |
| Refmodes.ConstantRefmode | FactGenerator/src/RefmodeEngine.cpp:74-84 | a constant's refmode consumes exactly one slot |
| Refmodes.BlockRefmode | FactGenerator/src/RefmodeEngine.cpp:86-95 | a block's refmode changes at most frame numberings |
| Refmodes.GlobalValueRefmode | FactGenerator/src/RefmodeEngine.cpp:121-130 | a global value's refmode changes at most frame numberings |
| Refmodes.ValueRefmode | FactGenerator/src/RefmodeEngine.cpp:132-144 | a value's refmode changes at most frame numberings |
| Refmodes.InstructionRefmodeInBody | FactGenerator/src/RefmodeEngine.cpp:60-72 | inside function f, a block and instruction n the refmode is "<root>:f:n", without the block |
| Refmodes.InstructionRefmodesDistinct | FactGenerator/src/RefmodeEngine.cpp:60-72 | within one function, instructions with different indices get different refmodes |
| Refmodes.ConstantRefmodeParts | FactGenerator/src/RefmodeEngine.cpp:74-84 | a constant's refmode is the instruction-qualified prefix, the current slot, ':' and the constant's text; the slot advances |
| Refmodes.ConstantRefmodesDistinct | FactGenerator/src/RefmodeEngine.cpp:74-84 | two constants written one after the other in one instruction never share a refmode, even with equal values |
| Refmodes.AsmRefmodeNotConstant | FactGenerator/src/RefmodeEngine.cpp:108-119 | an inline-asm refmode takes no slot and still differs from the refmode of any constant of the same instruction |
| Refmodes.RootStable | FactGenerator/src/RefmodeEngine.cpp:146-172 | pushes and pops never change the root frame, so a metadata node keeps one refmode throughout a module |
| Refmodes.GlobalRefmodesIgnoreFrames | FactGenerator/src/RefmodeEngine.cpp:97-172 | function and metadata refmodes depend only on the root prefix, not on the frames above it |
| Refmodes.FunctionRefmodeInModule | FactGenerator/src/RefmodeEngine.cpp:97-106 | a function's refmode is "<path>:name", without '@' |
| Refmodes.NamedStructRefmodes | FactGenerator/src/RefmodeEngine.cpp:49-52 | two named identified structs share a type refmode exactly when they share a name |
| Refmodes.ValueRefmodeRoutesBlocks | FactGenerator/src/RefmodeEngine.cpp:135-137 | a Value that is a block gets the basic-block refmode |
| Numbering.AssignFacts | FactGenerator/src/RefmodeEngineImpl.cpp:98-120 | the counter loop numbers exactly the listed ids, each number is below the count and names a position holding that id |
| Numbering.AssignInjective | FactGenerator/src/RefmodeEngineImpl.cpp:98-120 | distinct numbered values never share a number |
| Numbering.AssignConsecutive | FactGenerator/src/RefmodeEngineImpl.cpp:98-120 | with no repeated id, the i-th id gets exactly i: the numbers are 0..k-1 in order |
| Numbering.ArgSlotsMembers | FactGenerator/src/RefmodeEngineImpl.cpp:101-105 | an id takes an argument slot exactly when it is an unnamed argument |
| Numbering.InstrSlotsMembers | FactGenerator/src/RefmodeEngineImpl.cpp:114-119 | an id takes an instruction slot exactly when it is an unnamed non-void instruction |
| Numbering.BlocksSlotsMembers | FactGenerator/src/RefmodeEngineImpl.cpp:108-120 | an id takes a block-loop slot exactly when one block's slots contain it |
| Numbering.NumberingFacts | FactGenerator/src/RefmodeEngineImpl.cpp:95-122 | a function's numbering is injective, bounded by the slot count, and numbers exactly the unnamed arguments, unnamed blocks and unnamed non-void instructions |
| Numbering.NumberingConsecutive | FactGenerator/src/RefmodeEngineImpl.cpp:95-120 | with distinct slot ids the numbers are 0..k-1 in the order arguments, then each block followed by its instructions |
| Numbering.AssignSnoc | FactGenerator/src/RefmodeEngineImpl.cpp:103-117 | one more slot gives the counter's next value to that id |
| Numbering.ComputeNumbering | FactGenerator/src/RefmodeEngineImpl.cpp:95-123 | the counter loops build exactly the specified numbering of the function |
| Numbering.NumberArgs | FactGenerator/src/RefmodeEngineImpl.cpp:98-105 | the argument loop numbers the unnamed arguments 0, 1, 2, … and returns the counter |
| Numbering.NumberBlocks | FactGenerator/src/RefmodeEngineImpl.cpp:107-120 | the block loop continues the counter over the blocks' slots in order |
| Numbering.NumberBlock | FactGenerator/src/RefmodeEngineImpl.cpp:109-111 | an unnamed block takes the next slot before its instructions |
| Numbering.NumberInstrs | FactGenerator/src/RefmodeEngineImpl.cpp:114-119 | the unnamed non-void instructions of a block take the next slots in order |
| Generator.SameShapeWellFormed | FactGenerator/src/RefmodeEngineImpl.cpp:45-58 | a state that differs only in frame numberings stays well formed |
| Generator.RecordVariableOverwrites | FactGenerator/include/FactGenerator.hpp:88-90 | a later recordVariable for the same id wins, other ids keep their type, and the id joins the cache |
| Generator.RecordTypeIdempotent | FactGenerator/include/FactGenerator.hpp:92-95 | recordType adds the type to the set once (a second call changes nothing) and returns the same refmode each time |
| Generator.InsertResultKeepsFirst | FactGenerator/src/FactGenerator.cpp:119 | inserting into the result map keeps the first value for an id |
| Generator.EmitAppends | FactGenerator/src/FactGenerator.cpp:152-154 | writing a fact appends exactly that tuple to the sink and changes nothing else |
| Generator.FactGenerator.constructor | FactGenerator/include/FactGenerator.hpp:85 | a new generator has an empty sink, caches and result map and no module entered |
| Generator.FactGenerator.WriteFact | FactGenerator/src/FactGenerator.cpp:152-154 | the sink gains the tuple at its end; nothing else changes |
| Generator.FactGenerator.RecordVariable | FactGenerator/include/FactGenerator.hpp:88-90 | the variable cache maps the id to the type; nothing else changes |
| Generator.FactGenerator.RecordType | FactGenerator/include/FactGenerator.hpp:92-95 | the type joins the type set and its refmode is returned |
| Generator.FactGenerator.InsertResult | FactGenerator/src/FactGenerator.cpp:119 | the result map gains the entry unless the id is already present |
| Generator.FactGenerator.EnterModule | FactGenerator/src/RefmodeEngineImpl.hpp:29-32 | a fresh context manager in its initial state replaces the old one; frames and counters start over |
| Generator.FactGenerator.ExitModule | FactGenerator/src/RefmodeEngineImpl.hpp:34 | exitModule changes nothing |
| Generator.FactGenerator.EnterContext | FactGenerator/src/RefmodeEngineImpl.hpp:25 | pushes the frame as the context manager specifies; facts and caches are unchanged |
| Generator.FactGenerator.ExitContext | FactGenerator/src/RefmodeEngineImpl.hpp:27 | pops the top frame as the context manager specifies; facts and caches are unchanged |
| Generator.FactGenerator.FunctionContext | FactGenerator/src/RefmodeEngineImpl.hpp:36-41 | returns the active function frame's function, or None when there is none |
| Generator.FactGenerator.RefmodeOf | FactGenerator/src/RefmodeEngineImpl.cpp:18-69 | returns the specified text of the value and updates only the frame numberings |
| Generator.FactGenerator.SlotRefmode | FactGenerator/src/RefmodeEngineImpl.cpp:45-58 | the loop from the top frame down finds the innermost function frame, numbers it lazily and returns "%N" as specified |
| Generator.FactGenerator.InstructionRefmode | FactGenerator/src/RefmodeEngine.cpp:60-72 | returns the function-qualified index of the current instruction frame |
| Generator.FactGenerator.ConstantRefmode | FactGenerator/src/RefmodeEngine.cpp:74-84 | returns the specified constant refmode and consumes one slot |
| Generator.FactGenerator.BlockRefmode | FactGenerator/src/RefmodeEngine.cpp:86-95 | returns the specified block refmode |
| Generator.FactGenerator.FunctionRefmode | FactGenerator/src/RefmodeEngine.cpp:97-106 | returns the root prefix plus the function's raw name |
| Generator.FactGenerator.AsmRefmode | FactGenerator/src/RefmodeEngine.cpp:108-119 | returns the instruction-qualified ":<asm>" refmode and changes no counter |
| Generator.FactGenerator.GlobalValueRefmode | FactGenerator/src/RefmodeEngine.cpp:121-130 | returns the root prefix plus the value's '@' text |
| Generator.FactGenerator.ValueRefmode | FactGenerator/src/RefmodeEngine.cpp:132-144 | returns the specified value refmode, routing blocks to the block case |
| Generator.FactGenerator.NodeRefmode | FactGenerator/src/RefmodeEngine.cpp:146-172 | returns the root prefix plus the node's slot text |
| Generator.FindInnermostFunction | FactGenerator/src/RefmodeEngineImpl.cpp:46-49 | the top-down search returns the innermost function frame |
| Generator.InnermostAt | FactGenerator/src/RefmodeEngineImpl.cpp:46-49 | a function frame with no function frame above it is the one the search finds |
| Generator.InnermostNone | FactGenerator/src/RefmodeEngineImpl.cpp:46-61 | without a function frame the search finds nothing and the value prints itself |
| FactGen.EnterLeave | FactGenerator/include/FactGenerator.hpp:131-140 | a frame entered and left again, with only facts appended in between, leaves the frames as they were |
| FactGen.BlockRef | FactGenerator/src/FactGenerator.cpp:149 | taking a block's refmode writes no fact and keeps the frames and the instruction counter |
| FactGen.GlobalVarGrows | FactGenerator/src/Globals.cpp:59-132 | writing a global variable only appends facts and keeps the frames |
| FactGen.AliasGrows | FactGenerator/src/Globals.cpp:15-55 | writing an alias only appends facts and keeps the frames |
| FactGen.FunctionGrows | FactGenerator/src/Functions.cpp:16-105 | writeFunction only appends facts and keeps the frames |
| FactGen.StepGrows | FactGenerator/src/InstructionVisitor.cpp:34-60 | each step of the instruction visitor only appends facts and keeps the frames |
| FactGen.VisitGrows | FactGenerator/src/FactGenerator.cpp:208 | visiting an instruction only appends facts and keeps the frames |
| FactGen.SigLoop | FactGenerator/src/FactGenerator.cpp:126-137 | a successful signature loop only appends facts and changes nothing else |
| FactGen.SigLoopMeaning | FactGenerator/src/FactGenerator.cpp:126-137 | every entry whose pattern is found in the (demangled when Itanium) name emits its signatures for the raw name, in order; the loop fails exactly when one of those is malformed, with its message; it reports a match exactly when some entry matched |
| FactGen.SigLoopFails | FactGenerator/src/FactGenerator.cpp:133-134 | the loop fails exactly when a matching entry is malformed, with the message of one of them |
| FactGen.SigLoopFacts | FactGenerator/src/FactGenerator.cpp:127-137 | a successful loop appends the signature facts of all matching entries, not just the first, in order |
| FactGen.SigLoopMatched | FactGenerator/src/FactGenerator.cpp:126-135 | the matched flag is set exactly when some entry matches |
| FactGen.MatchingFrom | FactGenerator/src/FactGenerator.cpp:127-137 | the list of matching entries is empty exactly when no pattern is found in the name |
| FactGen.BlockLabel | FactGenerator/src/FactGenerator.cpp:151-159 | a labelled block only appends facts |
| FactGen.BlockLabelMeaning | FactGenerator/src/FactGenerator.cpp:151-159 | the label succeeds exactly when the refmode holds '%' or '!'; it then writes id, type "label", the function name and the name part from the last such character |
| FactGen.BlockLabelled | FactGenerator/src/FactGenerator.cpp:149-159 | inside a function a block's refmode always holds a '%', so substr never throws |
| FactGen.Preds | FactGenerator/src/FactGenerator.cpp:161-168 | the predecessor loop only appends facts and keeps the frames |
| FactGen.PredsFacts | FactGenerator/src/FactGenerator.cpp:161-168 | exactly one predecessor fact per CFG predecessor, each from this block's refmode to a block refmode of the same function |
| FactGen.BlockRefPrefix | FactGenerator/src/RefmodeEngine.cpp:86-95 | a block refmode starts with the function-qualified prefix and "[basicblock]" |
| FactGen.Target | FactGenerator/src/FactGenerator.cpp:180-190 | recording the target only appends facts and keeps the frames |
| FactGen.TargetShape | FactGenerator/src/FactGenerator.cpp:180-190 | a non-void instruction gets exactly one assigns_to fact whose target is cached with the instruction's type and put in the result map; a void one gets nothing |
| FactGen.InstrHead | FactGenerator/src/FactGenerator.cpp:174-205 | the head of an instruction only appends facts and keeps the frames |
| FactGen.InstrHeadTarget | FactGenerator/src/FactGenerator.cpp:174-190 | the head writes assigns_to first (non-void only), puts the instruction refmode in the result map and leaves the type set alone |
| FactGen.InstrHeadLinks | FactGenerator/src/FactGenerator.cpp:192-205 | the head ends with successor(prev, iref) when there is a previous instruction, then instruction_in_function and a bb_entry naming a block of the same function |
| FactGen.InstrHeadFacts | FactGenerator/src/FactGenerator.cpp:192-205 | after the target exactly the successor, function and block-entry facts follow, and caches are unchanged |
| FactGen.Positions | FactGenerator/src/FactGenerator.cpp:210-224 | the metadata loop only appends facts |
| FactGen.PositionsFacts | FactGenerator/src/FactGenerator.cpp:210-224 | one identical pos fact (line, column) per attachment when the instruction has a debug location, none otherwise |
| FactGen.InstrStep | FactGenerator/src/FactGenerator.cpp:171-225 | one instruction in its frame keeps the frames and advances the instruction counter by one |
| FactGen.InstrInside | FactGenerator/src/FactGenerator.cpp:174-224 | inside the frame the head comes first and everything after it only appends facts |
| FactGen.InstrFrameCloses | FactGenerator/include/FactGenerator.hpp:131-140 | leaving an instruction frame restores the frames with the counter one further |
| FactGen.InstrStepRef | FactGenerator/src/RefmodeEngine.cpp:60-72 | inside a function an instruction's refmode is the function-qualified prefix and the counter before it |
| FactGen.InstrStepLinked | FactGenerator/src/FactGenerator.cpp:193-197 | an instruction with a previous one is recorded as that one's successor |
| FactGen.InstrStepFrames | FactGenerator/src/FactGenerator.cpp:171-173 | after an instruction the next one sees the same function marker and prefix and the counter one further |
| FactGen.EnterInner | FactGenerator/src/ContextManager.hpp:72-77 | a block or instruction frame above an active function keeps the marker and the function-qualified prefix |
| FactGen.Instrs | FactGenerator/src/FactGenerator.cpp:171-225 | the instruction loop keeps the frames and advances the counter by the number of instructions |
| FactGen.BlockStep | FactGenerator/src/FactGenerator.cpp:147-226 | one block in its frame keeps the frames and advances the counter by its instruction count |
| FactGen.BlockInside | FactGenerator/src/FactGenerator.cpp:149-225 | the work inside a block frame keeps the frames and advances the counter by its instruction count |
| FactGen.BlockFrameCloses | FactGenerator/include/FactGenerator.hpp:131-140 | leaving a block frame restores the frames and keeps the counter where the block left it |
| FactGen.Blocks | FactGenerator/src/FactGenerator.cpp:142-226 | the block loop keeps the frames and advances the counter by all the instructions; the previous instruction carries across blocks |
| FactGen.FunctionStep | FactGenerator/src/FactGenerator.cpp:114-229 | one function in its frame only appends facts and restores the frames |
| FactGen.FunctionInside | FactGenerator/src/FactGenerator.cpp:115-228 | the work inside a function frame keeps the frames |
| FactGen.FunctionBody | FactGenerator/src/FactGenerator.cpp:142-228 | an unmatched function's body keeps the frames and leaves the variable cache empty |
| FactGen.Opened | FactGenerator/src/FactGenerator.cpp:115-123 | the function opening only appends facts under the new function frame |
| FactGen.FunctionOpening | FactGenerator/src/FactGenerator.cpp:115-123 | at module level a function opens with refmode "<root>:name", the counter at 0, itself as the active function and its prefix for locals |
| FactGen.FunctionSkipsBody | FactGenerator/src/FactGenerator.cpp:126-140 | a function some pattern matches gets its opening and the signature facts of every matching entry, and nothing else: no blocks and no variable flush |
| FactGen.FunctionSigFails | FactGenerator/src/FactGenerator.cpp:133-134 | a malformed signature of a matching entry ends the run with an error |
| FactGen.FunctionFlushes | FactGenerator/src/FactGenerator.cpp:138-140 | a function that no pattern matches leaves the variable cache empty |
| FactGen.FunctionsLoop | FactGenerator/src/FactGenerator.cpp:114-229 | the function loop only appends facts and keeps the module-level frames |
| FactGen.GlobalsLoop | FactGenerator/src/FactGenerator.cpp:87-95 | the global-variable loop only appends facts and keeps the frames |
| FactGen.AliasesLoop | FactGenerator/src/FactGenerator.cpp:97-105 | the alias loop only appends facts and keeps the frames |
| FactGen.ModuleBody | FactGenerator/src/FactGenerator.cpp:87-229 | globals, aliases, the options fact and the functions only append facts and keep the frames |
| FactGen.ProcessModule | FactGenerator/src/FactGenerator.cpp:60-232 | a successful run appends to the sink and ends at module level with the root frame alone |
| FactGen.SignaturesM | FactGenerator/src/FactGenerator.cpp:126-137 | the loop on the generator reaches exactly the specified signature loop's state and matched flag, or its error |
| FactGen.PredsM | FactGenerator/src/FactGenerator.cpp:161-168 | the predecessor loop reaches the specified state |
| FactGen.TargetM | FactGenerator/src/FactGenerator.cpp:180-190 | recording the target reaches the specified state |
| FactGen.InstrHeadM | FactGenerator/src/FactGenerator.cpp:174-205 | the instruction head reaches the specified state |
| FactGen.PositionsM | FactGenerator/src/FactGenerator.cpp:210-224 | the metadata loop reaches the specified state |
| FactGen.InstrM | FactGenerator/src/FactGenerator.cpp:171-225 | one instruction reaches the specified state and refmode, or its error |
| FactGen.InstrInsideM | FactGenerator/src/FactGenerator.cpp:174-224 | the work inside an instruction frame reaches the specified state, or its error |
| FactGen.InstrsM | FactGenerator/src/FactGenerator.cpp:171-225 | the instruction loop reaches the specified state and last refmode, or its error |
| FactGen.BlockM | FactGenerator/src/FactGenerator.cpp:147-226 | one block reaches the specified state, or its error |
| FactGen.BlockInsideM | FactGenerator/src/FactGenerator.cpp:149-225 | the work inside a block frame reaches the specified state, or its error |
| FactGen.BlockLabelM | FactGenerator/src/FactGenerator.cpp:151-159 | the label reaches the specified state, or the substr error |
| FactGen.BlocksM | FactGenerator/src/FactGenerator.cpp:142-226 | the block loop reaches the specified state, or its error |
| FactGen.FunctionM | FactGenerator/src/FactGenerator.cpp:114-229 | one function reaches the specified state, or its error |
| FactGen.FunctionInsideM | FactGenerator/src/FactGenerator.cpp:115-228 | the work inside a function frame reaches the specified state, or its error |
| FactGen.FunctionBodyM | FactGenerator/src/FactGenerator.cpp:142-228 | an unmatched function's body reaches the specified state, or its error |
| FactGen.FunctionsM | FactGenerator/src/FactGenerator.cpp:114-229 | the function loop reaches the specified state, or its error |
| FactGen.GlobalsM | FactGenerator/src/FactGenerator.cpp:87-95 | the global-variable loop reaches the specified state |
| FactGen.AliasesM | FactGenerator/src/FactGenerator.cpp:97-105 | the alias loop reaches the specified state |
| FactGen.ProcessModuleM | FactGenerator/src/FactGenerator.cpp:60-232 | processModule on the generator reaches the specified run from a fresh context manager for the path, or its error |
| FactGen.ModuleBodyM | FactGenerator/src/FactGenerator.cpp:87-229 | the module's contents reach the specified state, or its error |
| Constants.Operands | FactGenerator/src/Constants.cpp:107-166 | every operand writeConstant descends into is smaller than its constant, so the recursion ends |
| Constants.AggregatePreds | FactGenerator/src/Constants.cpp:167-171 | the index, size and id predicates of arrays, structs and vectors belong to writeConstant's predicates and are not constant::id |
| Constants.CastPredsIn | FactGenerator/src/Constants.cpp:106-125 | the kind-id and operand-link predicates of bitcast, inttoptr and ptrtoint belong to writeConstant's predicates and are not constant::id |
| Constants.GepLinkPredIn | FactGenerator/src/Constants.cpp:140-144 | the GEP base and index predicates belong to writeConstant's predicates and are not constant::id |
| Constants.ConstantIdsAppend | FactGenerator/src/Constants.cpp:26 | the constant ids of two fact runs in a row are those of the first, then those of the second |
| Constants.SlotPrefixedDistinct | FactGenerator/src/RefmodeEngine.cpp:80-81 | two ids with different slots after the same instruction prefix differ |
| Constants.HeaderAdvance | FactGenerator/src/Constants.cpp:23-46 | the header of writeConstant takes one slot, writes one constant id carrying that slot, and keeps frames and the variable cache |
| Constants.AttrsShape | FactGenerator/src/Constants.cpp:27-45 | after the id: constant::type (type recorded), constant::in_func "@f" only inside a function, then the printed value and the hash of that same text |
| Constants.AttrsQuiet | FactGenerator/src/Constants.cpp:27-46 | the attribute part takes no slot and writes no constant id |
| Constants.WriteConstantAdvance | FactGenerator/src/Constants.cpp:18-92 | writeConstant(c) writes exactly Written(c) constant ids (one per node of the constant tree) carrying consecutive slots, only under constant predicates, and returns the id with the first slot |
| Constants.KindFactsAdvance | FactGenerator/src/Constants.cpp:48-89 | the kind chain writes one constant id per nested sub-constant and nothing else slot-consuming |
| Constants.ScalarKindAdvance | FactGenerator/src/Constants.cpp:48-88 | null, int, fp, function, global and undef constants take no further slot |
| Constants.ExprFactsAdvance | FactGenerator/src/Constants.cpp:98-152 | a constant expression takes one slot per nested operand constant |
| Constants.CastFactsAdvance | FactGenerator/src/Constants.cpp:102-126 | a bitcast, inttoptr or ptrtoint expression takes the slots of its operand 0 |
| Constants.GepFactsAdvance | FactGenerator/src/Constants.cpp:128-148 | a GEP expression takes the slots of all its operands |
| Constants.GepOperandsAdvance | FactGenerator/src/Constants.cpp:135-145 | the GEP operand loop takes the slots of the operands written so far |
| Constants.WithOperandsAdvance | FactGenerator/src/Constants.cpp:158-172 | an array, struct or vector takes the slots of all its operands |
| Constants.OperandFactsAdvance | FactGenerator/src/Constants.cpp:163-168 | the aggregate operand loop takes the slots of the operands written so far |
| Constants.WriteConstantIdsDistinct | FactGenerator/src/Constants.cpp:107-166 | a constant tree of n nodes yields n pairwise-distinct constant refmodes, and the slot counter moves on by n |
| Constants.LinkedConstant | FactGenerator/src/Constants.cpp:107-167 | writing a constant and then a fact linking an owner to it ends with that fact, whose second column is the constant's slot-carrying refmode |
| Constants.WriteConstantM | FactGenerator/src/Constants.cpp:18-92 | writeConstant on the generator reaches the specified state and returns the specified refmode |
| Constants.WriteConstantAttrs | FactGenerator/src/Constants.cpp:27-46 | the attribute part reaches the specified state |
| Constants.WriteKindFacts | FactGenerator/src/Constants.cpp:48-89 | the kind chain reaches the specified state |
| Constants.WriteConstantExpr | FactGenerator/src/Constants.cpp:98-152 | writeConstantExpr reaches the specified state |
| Constants.WriteOperand | FactGenerator/src/Constants.cpp:138-167 | one operand round reaches the specified state |
| Constants.WriteGepOperands | FactGenerator/src/Constants.cpp:133-145 | the GEP operand loop reaches the specified state |
| Constants.WriteConstantWithOperands | FactGenerator/src/Constants.cpp:158-172 | writeConstantWithOperands reaches the specified state |
| Globals.AliasHeadShape | FactGenerator/src/Globals.cpp:20-45 | the alias head appends exactly alias::id, alias::name "@"-name, visibility, linkage and type, in that order, and records the alias type |
| Globals.AliasFacts | FactGenerator/src/Globals.cpp:20-54 | an alias without an aliasee writes just its head; one with an aliasee then writes the aliasee constant and ends with alias::aliasee linking the alias to that constant's refmode |
| Globals.WriteGlobalAliasM | FactGenerator/src/Globals.cpp:10-55 | writeGlobalAlias on the generator reaches the specified state |
| Globals.IdentityShape | FactGenerator/src/Globals.cpp:59-81 | the opening writes id, "@"-name and demangled name, adds the result-map entry, records the variable's type and returns its refmode |
| Globals.LinkageShape | FactGenerator/src/Globals.cpp:83-101 | the linkage part appends exactly the optional "external" fact, linkage, visibility and the thread-local mode when not plain |
| Globals.FlagsShape | FactGenerator/src/Globals.cpp:104-112 | the flag part appends "externally_initialized" when so, one constness flag, then the type |
| Globals.TrailerShape | FactGenerator/src/Globals.cpp:122-131 | the trailer appends the section when present and the alignment when non-zero |
| Globals.GlobalVarHeadShape | FactGenerator/src/Globals.cpp:59-112 | the head appends exactly its listed facts, adds the result-map entry and records the type, taking no constant slot |
| Globals.IdentityNoFlags | FactGenerator/src/Globals.cpp:62-81 | the identity facts carry no global_var::flag |
| Globals.LinkageNoFlags | FactGenerator/src/Globals.cpp:83-101 | the linkage facts carry no global_var::flag |
| Globals.IdentityNoLinkage | FactGenerator/src/Globals.cpp:62-81 | the identity facts carry no global_var::linkage |
| Globals.FlagCounts | FactGenerator/src/Globals.cpp:104-111 | the flag part holds "constant" once exactly when the global is constant and "global" once exactly when it is not |
| Globals.GlobalVarOneConstnessFlag | FactGenerator/src/Globals.cpp:59-112 | over the whole head, exactly one of the flags "constant" and "global" is written, the one matching the constness |
| Globals.ExternalTwiceInLinkage | FactGenerator/src/Globals.cpp:84-91 | an uninitialised global with external linkage gets the "external" linkage fact twice in the linkage part |
| Globals.UninitialisedExternalLinkedTwice | FactGenerator/src/Globals.cpp:59-112 | over the whole head, such a global is linked "external" twice |
| Globals.GlobalVarTail | FactGenerator/src/Globals.cpp:114-131 | writeGlobalVar ends with the trailer facts, keeps the variable cache, and in between writes the initializer constant and links it with global_var::initializer exactly when there is one |
| Globals.WriteGlobalVarM | FactGenerator/src/Globals.cpp:57-132 | writeGlobalVar on the generator reaches the specified state |
| Globals.WriteGlobalVarIdentity | FactGenerator/src/Globals.cpp:59-81 | the opening on the generator reaches the specified state and returns the type refmode |
| Globals.WriteGlobalVarLinkage | FactGenerator/src/Globals.cpp:83-101 | the linkage part reaches the specified state |
| Globals.WriteGlobalVarFlags | FactGenerator/src/Globals.cpp:104-112 | the flag part reaches the specified state |
| Globals.WriteGlobalVarTrailer | FactGenerator/src/Globals.cpp:122-131 | the trailer reaches the specified state |
| Functions.RemoveQuotes | FactGenerator/src/functions.cpp:152-153 | the result holds no '"', is no longer than the input, and keeps exactly the input's other characters |
| Functions.RemoveQuotesNoQuotes | FactGenerator/src/functions.cpp:153 | text without quotes is left unchanged |
| Functions.RemoveQuotesIdempotent | FactGenerator/src/functions.cpp:153 | erasing the quotes twice is erasing them once |
| Functions.EraseQuotes | FactGenerator/src/functions.cpp:153 | the in-place erase-remove over a character buffer leaves the quote-free text in the buffer's prefix and returns its length |
| Functions.SlotFactsHas | FactGenerator/src/functions.cpp:150-170 | every attribute of a slot is recorded, quotes removed, under the predicate its slot index selects |
| Functions.ListFactsHas | FactGenerator/src/functions.cpp:146-172 | every attribute of every slot of the list is recorded so |
| Functions.FnAttrFactsRouted | FactGenerator/src/functions.cpp:132-173 | writeFnAttributes records every attribute of the list: return slot to ret_attr, function slot to fn_attr, argument k to param_attr with index k |
| Functions.SlotFactsShaped | FactGenerator/src/functions.cpp:150-170 | every fact a slot writes is a target_dependent fact or a ret_attr/fn_attr/param_attr fact of the group on the given refmode, with no quote in the written text |
| Functions.ListFactsShaped | FactGenerator/src/functions.cpp:146-172 | every fact writeFnAttributes writes is so shaped |
| Functions.ReturnAttrTwice | FactGenerator/src/functions.cpp:81-87 | a lone quote-free return attribute equal to the return text is written as function::ret_attr by the attribute loop as well as by the whole-string write |
| Functions.WriteFnAttributes | FactGenerator/src/functions.cpp:132-173 | the nested slot and attribute loops append exactly the attribute facts of the list |
| Functions.WriteSlotAttributes | FactGenerator/src/functions.cpp:149-171 | the inner loop appends exactly the facts of the slot |
| Functions.WriteAttribute | FactGenerator/src/functions.cpp:152-170 | one attribute appends its target_dependent fact when it is a string attribute, then its routed fact |
| Functions.PreShape | FactGenerator/src/Functions.cpp:18-44 | the opening appends type, demangled signature, linkage, visibility, the alignment when non-zero and gc when present, and records the function type |
| Functions.AttributesShape | FactGenerator/src/functions.cpp:78-87 | the older writer's attribute part appends the return text when there are return attributes, then the attribute facts |
| Functions.NamingShape | FactGenerator/src/Functions.cpp:53-67 | the naming part appends the calling convention unless it is C, the "@"-name, and unnamed_addr when the address is globally unnamed |
| Functions.OlderPostShape | FactGenerator/src/functions.cpp:49-87 | the older writer's part after the personality appends the naming facts, then the attribute facts |
| Functions.PostShape | FactGenerator/src/Functions.cpp:53-67 | the part after the personality appends exactly its listed facts in either variant |
| Functions.ParamRefsSnoc | FactGenerator/src/Functions.cpp:102 | the refmodes named by param facts grow by the new fact's refmode |
| Functions.ParamStepFacts | FactGenerator/src/Functions.cpp:97-103 | one parameter round writes one param fact at its index naming the argument's refmode, which becomes a result-map key and a cached variable of the argument's type |
| Functions.RoundsThenRound | FactGenerator/src/Functions.cpp:91-104 | n rounds followed by a round at index n are n + 1 rounds |
| Functions.StepThenRound | FactGenerator/src/Functions.cpp:91-104 | the loop's step extends the rounds by one |
| Functions.NoRounds | FactGenerator/src/Functions.cpp:91 | before the loop, zero rounds have been made |
| Functions.ParamsFacts | FactGenerator/src/Functions.cpp:91-104 | the parameter loop writes one param fact per argument, at indices 0, 1, 2, ... in order, each naming a cached variable and result-map key, caches no other variable and records no type |
| Functions.DeclarationStops | FactGenerator/src/Functions.cpp:73-79 | a declaration writes id_decl and nothing more: no id_defn, section or parameter |
| Functions.DefinitionParams | FactGenerator/src/Functions.cpp:81-104 | a definition writes id_defn, the section when present, then the parameter rounds |
| Functions.WriteFunctionShape | FactGenerator/src/Functions.cpp:15-105 | writeFunction is the opening facts, then the personality constant linked by pers_fn exactly when there is one, then the facts after it, then the body |
| Functions.PostFactsCases | FactGenerator/src/Functions.cpp:53-67 | calling_conv is written exactly when the convention is not C; the current writer writes no attribute facts |
| Functions.WriteFunctionM | FactGenerator/src/Functions.cpp:15-105 | writeFunction on the generator reaches the specified state |
| Functions.WriteDefinitionHead | FactGenerator/src/Functions.cpp:81-88 | id_defn and section reach the specified state |
| Functions.WriteFunctionPre | FactGenerator/src/Functions.cpp:18-44 | the opening reaches the specified state |
| Functions.WriteFunctionPost | FactGenerator/src/Functions.cpp:53-67 | the part after the personality reaches the specified state |
| Functions.WriteFunctionNaming | FactGenerator/src/Functions.cpp:53-67 | the naming part reaches the specified state |
| Functions.WriteFunctionAttributes | FactGenerator/src/functions.cpp:78-87 | the older attribute part reaches the specified state |
| Functions.WriteParams | FactGenerator/src/Functions.cpp:91-104 | the parameter loop with its running index reaches the specified state |
| Functions.WriteParam | FactGenerator/src/Functions.cpp:97-103 | one round reaches the specified state |
| Variables.StepShape | FactGenerator/src/Variables.cpp:18-27 | one round appends exactly the variable's block (id, type, function, and the name part when the id has one) and records its type |
| Variables.StepsShape | FactGenerator/src/Variables.cpp:16-28 | n rounds append the blocks of the first n variables walked and record their types; the cache, the result map and the contexts are untouched |
| Variables.ConcatStep | FactGenerator/src/Variables.cpp:16 | appending one more block extends the concatenation of blocks over the walked prefix |
| Variables.TypesStep | FactGenerator/src/Variables.cpp:19 | the types recorded over a prefix grow by the next variable's type |
| Variables.LocalVariablesShape | FactGenerator/src/Variables.cpp:11-31 | writeLocalVariables appends the blocks of the cached variables in the order walked, records every cached type, empties the cache, and leaves the result map and contexts alone |
| Variables.VariableFacts | FactGenerator/src/Variables.cpp:16-28 | every cached variable gets its id, type and in_func facts; a name fact is written exactly for an id holding '%' or '!', with the suffix from the last of them; no id fact names a variable outside the cache |
| Variables.BlockContents | FactGenerator/src/Variables.cpp:18-27 | one id's block holds its three facts, and only its own block can name it |
| Variables.OrderIrrelevant | FactGenerator/src/Variables.cpp:16 | any two walks of the unordered cache give the same facts up to order, and the same remaining state |
| Variables.WriteLocalVariables | FactGenerator/src/Variables.cpp:11-31 | writeLocalVariables on the generator reaches the specified state |
| Variables.WriteVariables | FactGenerator/src/Variables.cpp:16-28 | the loop over the cache reaches the specified state |
| Variables.WriteVariable | FactGenerator/src/Variables.cpp:18-27 | one round reaches the specified state |
| Variables.LastSigil | FactGenerator/src/Variables.cpp:23 | the backwards scan returns the index of the last '%' or '!', or none when the id has neither |
| Assembly.ReplaceChar | FactGenerator/src/Assembly.cpp:17-18 | replacing a character by a text without it leaves none of it, and introduces only characters of the input or of the replacement |
| Assembly.ReplaceCharAppend | FactGenerator/src/Assembly.cpp:17-18 | replace_all distributes over concatenation |
| Assembly.ReplaceCharAbsent | FactGenerator/src/Assembly.cpp:17-18 | a text without the character is left unchanged |
| Assembly.CanonicalizeEscapesEach | FactGenerator/src/Assembly.cpp:15-20 | the two replace_all passes equal escaping each character on its own: tab to `\t`, newline to `\n`, the rest kept |
| Assembly.CanonicalizeFacts | FactGenerator/src/Assembly.cpp:15-20 | the canonical text holds no tab and no newline, a text without them is left alone, and canonicalize is idempotent |
| Assembly.CanonicalizeIdempotent | FactGenerator/src/Assembly.cpp:15-20 | canonicalizing twice is canonicalizing once |
| Assembly.CanonicalizeMergesEscapes | FactGenerator/src/Assembly.cpp:15-20 | the escaping is not injective: a tab and a backslash followed by 't' canonicalize alike |
| Assembly.WriteAsmFacts | FactGenerator/src/Assembly.cpp:22-48 | writeAsm returns the "<asm>" refmode under the current contexts and appends exactly the four constant facts and three inline_asm facts with the canonical strings, records the type and takes no constant slot |
| Assembly.WriteAsmM | FactGenerator/src/Assembly.cpp:22-48 | writeAsm on the generator reaches the specified state and returns the specified refmode |
| Types.WriteTypes | FactGenerator/src/Types.cpp:14-36 | writeTypes appends the four primitive facts, then the facts of every type in the closure of the recorded types, each listed once, and changes nothing else |
| Types.VisitAll | FactGenerator/src/Types.cpp:33-35 | the loop visits every collected type exactly once, in the order the set is walked, appending its facts |
| Types.PrimitivesFirst | FactGenerator/src/Types.cpp:17-21 | void, label, metadata and x86mmx are written first, in that order |
| Types.VisitedOnce | FactGenerator/src/Types.cpp:26-35 | each type of the closure is visited exactly once, no other type is visited, and every recorded type is visited |
| Types.EveryTypeWritten | FactGenerator/src/Types.cpp:33-35 | every fact the visitor writes for a collected type appears in the output |
| Types.OrderIrrelevant | FactGenerator/src/Types.cpp:33 | the facts written, counted with multiplicity, do not depend on the walking order of the unordered set |
| Types.ComponentsWritten | FactGenerator/src/Types.cpp:26-35 | every element, field, return or parameter type a written fact names is a collected type, so its own facts are written too |
| Types.SizesNotComponents | FactGenerator/src/TypeVisitor.cpp:27-36 | the size predicates are not component predicates |
| TypeClosure.UniverseClosed | FactGenerator/include/TypeAccumulator.hpp:45-99 | the finite universe of seeds, graph types and their components holds the seeds and is closed under the component edges |
| TypeClosure.ClosureContainsSeeds | FactGenerator/include/TypeAccumulator.hpp:24-33 | every seed is collected |
| TypeClosure.ClosureClosed | FactGenerator/include/TypeAccumulator.hpp:45-99 | every component of a collected type is collected |
| TypeClosure.ClosureLeast | FactGenerator/include/TypeAccumulator.hpp:45-99 | the collected set lies inside every closed set holding the seeds, so only reachable types are collected |
| TypeClosure.ClosureUnique | FactGenerator/include/TypeAccumulator.hpp:45-99 | a closed superset of the seeds inside every other one is the closure |
| TypeClosure.Fewer | FactGenerator/include/TypeAccumulator.hpp:46-49 | since types only join the set, the unvisited graph types never grow in number |
| TypeClosure.OneFewer | FactGenerator/include/TypeAccumulator.hpp:46-49 | inserting an unvisited graph type leaves one fewer, so the recursion ends |
| TypeClosure.TypeAccumulator.constructor | FactGenerator/include/TypeAccumulator.hpp:20 | a new accumulator has collected nothing |
| TypeClosure.TypeAccumulator.Accumulate | FactGenerator/include/TypeAccumulator.hpp:23-33 | after visiting the seeds the set is exactly the closure of what it held and the seeds |
| TypeClosure.TypeAccumulator.VisitType | FactGenerator/include/TypeAccumulator.hpp:45-80 | the type joins the set, the set only grows and stays within any closed bound, and every finished visit has its components collected |
| TypeClosure.TypeAccumulator.VisitComponents | FactGenerator/include/TypeAccumulator.hpp:52-79 | array and vector elements, a non-opaque pointer's pointee, struct fields and function signatures are descended into; the type's own components are then collected |
| TypeClosure.TypeAccumulator.VisitStructType | FactGenerator/include/TypeAccumulator.hpp:82-89 | every field of a non-opaque struct is collected |
| TypeClosure.TypeAccumulator.VisitFunctionType | FactGenerator/include/TypeAccumulator.hpp:91-99 | the return type and every parameter type are collected |
| TypeVisitor.GroupCounts | FactGenerator/src/TypeVisitor.cpp:41-109 | a kind group opening with its id fact and followed only by other predicates holds one kind-id fact and no size fact |
| TypeVisitor.FieldFactsAt | FactGenerator/src/TypeVisitor.cpp:173-184 | field i's type, offset and bit-offset facts sit at positions 3i, 3i+1 and 3i+2 |
| TypeVisitor.FieldMember | FactGenerator/src/TypeVisitor.cpp:173-184 | every field fact belongs to one field's row |
| TypeVisitor.FieldFactsPreds | FactGenerator/src/TypeVisitor.cpp:180-183 | the field loop writes only field_type, field_offset and field_bit_offset facts |
| TypeVisitor.ParamFactsAt | FactGenerator/src/TypeVisitor.cpp:210-215 | parameter i's param_type fact, carrying index i and the parameter type's refmode, sits at position i |
| TypeVisitor.ParamFactsPreds | FactGenerator/src/TypeVisitor.cpp:210-215 | the parameter loop writes only param_type facts |
| TypeVisitor.SizeCounts | FactGenerator/src/TypeVisitor.cpp:27-36 | a sized type gets the two size facts, an unsized one none, and neither is a kind-id fact |
| TypeVisitor.PointerCounts | FactGenerator/src/TypeVisitor.cpp:113-135 | a pointer's group holds one kind-id fact and no size fact |
| TypeVisitor.ArrayCounts | FactGenerator/src/TypeVisitor.cpp:137-147 | an array's group holds one kind-id fact and no size fact |
| TypeVisitor.VectorCounts | FactGenerator/src/TypeVisitor.cpp:221-242 | a vector's group holds one kind-id fact and no size fact |
| TypeVisitor.StructCounts | FactGenerator/src/TypeVisitor.cpp:149-189 | a struct's group holds one kind-id fact and no size fact, and an opaque struct's group no field fact |
| TypeVisitor.FunctionCounts | FactGenerator/src/TypeVisitor.cpp:191-219 | a function type's group holds one kind-id fact and no size fact |
| TypeVisitor.FunctionKindCounts | FactGenerator/src/TypeVisitor.cpp:191-219 | so does the group chosen for a function type |
| TypeVisitor.StructKindCounts | FactGenerator/src/TypeVisitor.cpp:149-189 | so does the group chosen for a struct type |
| TypeVisitor.StructKindFacts | FactGenerator/src/TypeVisitor.cpp:149-189 | the group chosen for a struct type is its struct group with its field facts |
| TypeVisitor.KindCounts | FactGenerator/src/TypeVisitor.cpp:41-109 | the switch writes exactly one kind-id fact for every handled kind, none for x86_mmx, token, bfloat, x86_amx and typed pointers, and never a size fact |
| TypeVisitor.TypeFactsShape | FactGenerator/src/TypeVisitor.cpp:23-111 | a sized type gets alloc_size then store_size first and an unsized one none; then exactly one kind-id fact for a handled kind and none otherwise |
| TypeVisitor.StructLayout | FactGenerator/src/TypeVisitor.cpp:149-189 | a struct's group: its id first; has_name exactly for a named struct; for an opaque one the opaque fact and no field fact; otherwise the field facts in order, then nfields |
| TypeVisitor.StructFieldAt | FactGenerator/src/TypeVisitor.cpp:173-184 | field i's three facts carry index i, the field type's refmode and the layout's offsets, at their place in the group |
| TypeVisitor.FunctionLayout | FactGenerator/src/TypeVisitor.cpp:191-219 | a function type's group: its id; varargs exactly when variadic; the return type; the parameter facts in order; then nparams |
| TypeVisitor.FunctionParamAt | FactGenerator/src/TypeVisitor.cpp:210-215 | parameter i's fact carries index i and the parameter type's refmode, at its place in the group |
| TypeVisitor.PointerLayout | FactGenerator/src/TypeVisitor.cpp:113-135 | a pointer's group: its id first; addr_space exactly when non-zero; a component type exactly when not opaque, naming the pointee |
| TypeVisitor.VectorLayout | FactGenerator/src/TypeVisitor.cpp:221-242 | a vector's group holds the size fact exactly for a fixed-length vector, with its element count, and always the id and component facts |
| TypeVisitor.FieldComponent | FactGenerator/src/TypeVisitor.cpp:180 | a field fact naming a component is field i's type fact |
| TypeVisitor.OffsetsNotComponents | FactGenerator/src/TypeVisitor.cpp:181-183 | the offset predicates name no component |
| TypeVisitor.ParamComponent | FactGenerator/src/TypeVisitor.cpp:214 | a parameter fact is parameter i's fact |
| TypeVisitor.StructComponent | FactGenerator/src/TypeVisitor.cpp:149-189 | in a struct's group only the field facts of a non-opaque struct name components |
| TypeVisitor.FunctionComponent | FactGenerator/src/TypeVisitor.cpp:191-219 | in a function type's group only the return-type and parameter facts name components |
| TypeVisitor.ComponentsNamed | FactGenerator/src/TypeVisitor.cpp:41-109 | every component a type's group names is one the type accumulator descends into |
| TypeVisitor.FunctionComponentsNamed | FactGenerator/src/TypeVisitor.cpp:191-219 | so for a function type |
| TypeVisitor.StructComponentsNamed | FactGenerator/src/TypeVisitor.cpp:149-189 | so for a struct type |
| TypeVisitor.VisitType | FactGenerator/src/TypeVisitor.cpp:23-111 | visitType appends exactly the type's facts and changes nothing else |
| TypeVisitor.VisitKind | FactGenerator/src/TypeVisitor.cpp:41-109 | the switch on the kind appends exactly the kind's group |
| TypeVisitor.VisitPointerType | FactGenerator/src/TypeVisitor.cpp:113-135 | visitPointerType appends exactly the pointer group |
| TypeVisitor.VisitArrayType | FactGenerator/src/TypeVisitor.cpp:137-147 | visitArrayType appends exactly the array group |
| TypeVisitor.VisitStructType | FactGenerator/src/TypeVisitor.cpp:149-189 | visitStructType appends exactly the struct group |
| TypeVisitor.WriteFields | FactGenerator/src/TypeVisitor.cpp:173-184 | the field loop appends the rows of all fields in order |
| TypeVisitor.WriteField | FactGenerator/src/TypeVisitor.cpp:174-183 | one field appends its three facts |
| TypeVisitor.VisitFunctionType | FactGenerator/src/TypeVisitor.cpp:191-219 | visitFunctionType appends exactly the function-type group |
| TypeVisitor.WriteParams | FactGenerator/src/TypeVisitor.cpp:210-215 | the parameter loop appends the facts of all parameters in order |
| TypeVisitor.VisitVectorType | FactGenerator/src/TypeVisitor.cpp:221-242 | visitVectorType appends exactly the vector group |
| Listings.ConcatHas | FactGenerator/src/Types.cpp:33-35 | a fact is among the blocks written over a walk exactly when it is in the block of one walked element |
| Listings.ConcatPermutation | FactGenerator/src/Types.cpp:33-35 | walking the elements in another order writes the same facts, counted with multiplicity |
| Listings.DistinctSameMultiset | FactGenerator/src/Variables.cpp:16 | two duplicate-free walks of the same elements are permutations of each other |
| Listings.ListingCount | FactGenerator/src/Types.cpp:33 | a walk of an unordered set meets every element exactly once and nothing else |
| Listings.ListingsAgree | FactGenerator/src/Types.cpp:33-35 | two walks of one set write the same facts, counted with multiplicity |
| Signatures.FindKind | FactGenerator/src/Signatures.cpp:143-267 | the else-if chain finds a kind of the table with the given key, and finds none exactly when no kind has that key |
| Signatures.ExtractFromArray | FactGenerator/src/Signatures.cpp:3-21 | an argument is extracted exactly when it has its declared type: an integer as its decimal text, a string behind an "@" |
| Signatures.ExtractMany | FactGenerator/src/Signatures.cpp:23-37 | the arguments are extracted exactly when every one has its declared type, and then one text per argument, each the single extraction at its place |
| Signatures.ExtractCons | FactGenerator/src/Signatures.cpp:33-35 | the first argument in front of the rest is the extraction at every place |
| Signatures.WritePts | FactGenerator/src/Signatures.cpp:48-81 | write_pts_signature succeeds exactly on an array of the kind's arity with well-typed elements, and then writes the kind's predicate over "@" + the function name and the arguments; otherwise it raises the not-an-array, wrong-count or wrong-type message |
| Signatures.Component | FactGenerator/src/Signatures.cpp:127-267 | a component that is not a one-member object raises the invalid-signature message; a dataflow, output or input key writes nothing; an unknown key raises the unknown-type message; a kind key writes or raises as write_pts_signature does; at most one fact is written |
| Signatures.FoldError | FactGenerator/src/Signatures.cpp:127-268 | the component loop ends without an error exactly when every component is well formed |
| Signatures.FoldGrows | FactGenerator/src/Signatures.cpp:127-268 | facts written are never taken back: the facts after n components are a prefix of those after m >= n |
| Signatures.StopsAtFirstError | FactGenerator/src/Signatures.cpp:127-268 | once a component is malformed nothing more is written: the facts are those of the components before it and the error is its own |
| Signatures.FoldPrefix | FactGenerator/src/Signatures.cpp:127-268 | the loop's result over a prefix depends on the prefix only |
| Signatures.EmittedOutcome | FactGenerator/src/Signatures.cpp:121-269 | emit_signatures stops with the first malformed component's error, keeping exactly the facts of the components before it |
| Signatures.EmittedComplete | FactGenerator/src/Signatures.cpp:121-269 | emit_signatures raises nothing exactly when every component is well formed |
| Signatures.EmittedFactShape | FactGenerator/src/Signatures.cpp:40-80 | every fact written is a summary-kind predicate over "@" + the function name followed by one column per declared argument |
| Signatures.SkippedWritesNothing | FactGenerator/src/Signatures.cpp:138-142 | a dataflow, output or input component writes and raises nothing, whatever its value |
| Signatures.StemsDistinct | FactGenerator/src/Signatures.cpp:143-262 | the seventeen kind names are pairwise distinct |
| Signatures.KindKeysDistinct | FactGenerator/src/Signatures.cpp:143-262 | the component keys are pairwise distinct, so a key selects at most one kind and the order of the tests does not matter |
| Signatures.StemOfKey | FactGenerator/src/Signatures.cpp:143-262 | a kind named by its stem has key "pts_" + stem and predicate signature::stem |
| Signatures.PredicateFromKey | FactGenerator/src/Signatures.cpp:143-262 | every kind's predicate is its key with "pts_" turned into "signature::" |
| Signatures.SkippedAreNotKinds | FactGenerator/src/Signatures.cpp:138-142 | no skipped key is a summary kind |
| Signatures.KindArities | FactGenerator/src/Signatures.cpp:143-262 | there are seventeen kinds, none with more than two arguments |
| Signatures.CollectOutcome | FactGenerator/src/Signatures.cpp:106-117 | the member loop succeeds exactly when every member holds an array and has a key std::regex accepts, then with one entry per member whose name and pattern are its key; the first rejected member fails it: a non-array one with the message of every clause visited, an invalid-regex key with that key's std::regex_error |
| Signatures.PreprocessOk | FactGenerator/src/Signatures.cpp:83-119 | preprocess_signatures succeeds exactly on a JSON object whose every value is an array and whose every key is a valid regular expression, and yields one entry per member, in order, named and patterned by its key |
| Signatures.PreprocessError | FactGenerator/src/Signatures.cpp:91-114 | a member whose value is not an array, after accepted members only, raises the message naming every key visited up to and including its own |
| Signatures.PreprocessRegexError | FactGenerator/src/Signatures.cpp:111-116 | an array member whose key std::regex rejects, after accepted members only, ends the run with that std::regex_error, not an invalid-file message |
| Signatures.PreprocessSignatures | FactGenerator/src/Signatures.cpp:83-119 | the loop returns exactly the specified entries or error, including the not-JSON and not-an-object messages and a key's std::regex_error |
| Signatures.CollectFrom | FactGenerator/src/Signatures.cpp:112-114 | once the member loop has failed, later members change nothing |
| Signatures.EmitSignatures | FactGenerator/src/Signatures.cpp:121-269 | emit_signatures on the writer appends the specified facts and returns the specified error |
| Signatures.WriteComponent | FactGenerator/src/Signatures.cpp:127-267 | one component appends its fact or reports its error as specified |
| Signatures.WritePtsSignature | FactGenerator/src/Signatures.cpp:48-81 | write_pts_signature appends its fact or reports its error as specified |
| Stats.SecondsOf | stats/stats.py:350-354 | the inner keys filed under an outer key are exactly the second halves of the pair keys with that first half |
| Stats.OuterKeys | stats/stats.py:350-354 | the outer keys are exactly the first halves of the pair keys |
| Stats.CurryEntries | stats/stats.py:350-354 | curry files every entry under its outer and inner key with its value, files nothing else, and leaves no inner dictionary empty |
| Stats.UncurryEntries | stats/stats.py:357-362 | uncurry has one pair-keyed entry per inner entry, with the same value, and no other |
| Stats.FlipEntries | stats/stats.py:365-366 | flip keys each value by the swapped pair and adds no key |
| Stats.FlipInvolution | stats/stats.py:365-366 | flipping twice gives the dictionary back |
| Stats.UncurryCurry | stats/stats.py:350-362 | uncurry undoes curry |
| Stats.CurryUncurry | stats/stats.py:350-362 | curry undoes uncurry exactly when no inner dictionary is empty, since uncurry drops the outer keys of empty ones |
| Stats.CurryUncurryNoEmpty | stats/stats.py:350-362 | with no empty inner dictionary, curry after uncurry is the identity |
| Stats.CurryUncurryAt | stats/stats.py:350-362 | so under each outer key |
| Stats.ConvoluteEntries | stats/stats.py:369-370 | convolute(d)[s][r] is d[r][s], with no other entries |
| Stats.ConvoluteForward | stats/stats.py:369-370 | every entry of d appears with its keys swapped |
| Stats.ConvoluteBackward | stats/stats.py:369-370 | every entry of the result comes from an entry of d |
| Stats.ConvoluteInvolution | stats/stats.py:369-370 | convolute is self-inverse on dictionaries with no empty inner dictionary |
| Stats.CurryLoop | stats/stats.py:350-354 | the loop over the items, filing each value under its outer and inner key, yields exactly curry's dictionary |
| Stats.FileOne | stats/stats.py:352-353 | filing one more item keeps every filed item under its keys and nothing else filed |
| Stats.CurryUnique | stats/stats.py:350-354 | a nested dictionary holding exactly the filed items, with no empty inner dictionary, is curry's result |
| Stats.CurryUniqueAt | stats/stats.py:350-354 | so under each outer key |
| Demangler.FindFirstNotOf | FactGenerator/include/Demangler.hpp:15 | the position found holds another character and every one before it is the given one; none is found exactly when every character is the given one |
| Demangler.Underscores | FactGenerator/include/Demangler.hpp:16-18 | k underscores |
| Demangler.ItaniumOfShape | FactGenerator/include/Demangler.hpp:13-19 | every name of one to four underscores, then 'Z', then anything, is an Itanium encoding |
| Demangler.ItaniumHasShape | FactGenerator/include/Demangler.hpp:13-19 | every Itanium encoding has that shape |
| Demangler.FirstNotOfAt | FactGenerator/include/Demangler.hpp:15 | the first non-underscore is found where the underscores stop |
| Demangler.NotItanium | FactGenerator/include/Demangler.hpp:13-19 | a name without a leading underscore, with five or more, or of underscores only (the npos case) is not an Itanium encoding |
| Demangler.OrchestratorItanium | FactGenerator/src/FactGenerator.cpp:52-58 | the generator's own copy of the check accepts exactly the same names |
| Demangler.DemangleCStr | FactGenerator/include/Demangler.hpp:21-27 | demangling yields the demangler's text on success and the name unchanged on failure |
| Demangler.CStr | FactGenerator/include/Demangler.hpp:29-31 | c_str hands over the prefix up to the first NUL, which holds no NUL |
| Demangler.DemangleOverloads | FactGenerator/include/Demangler.hpp:21-31 | for a name without NUL the two overloads agree, and a failed demangling returns the name itself |
| ContextSensitivities.All | FactGenerator/include/ContextSensitivity.hpp:11-31 | the nineteen settings of the enum |
| ContextSensitivities.Position | FactGenerator/include/ContextSensitivity.hpp:11-31 | a setting's ordinal is below nineteen |
| ContextSensitivities.PositionsListed | FactGenerator/include/ContextSensitivity.hpp:11-31 | the settings are listed in declaration order: INSENSITIVE, CALLSITE1..9, CALLER1..9 |
| ContextSensitivities.AllSettings | FactGenerator/include/ContextSensitivity.hpp:11-31 | every setting is listed, and no setting twice |
| ContextSensitivities.ToString | FactGenerator/include/ContextSensitivity.hpp:33-71 | every setting's name is at least eight characters long |
| ContextSensitivities.ToStringInjective | FactGenerator/include/ContextSensitivity.hpp:74-139 | two settings have the same name exactly when they are the same setting |
| ContextSensitivities.Lookup | FactGenerator/src/ContextSensitivity.cpp:8-48 | a token found is a listed setting with that name; none is found exactly when no listed setting has that name |
| ContextSensitivities.ParseRoundTrip | FactGenerator/src/ContextSensitivity.cpp:8-51 | a setting's own name parses back to it; a token parses exactly when it is some setting's name, and then to a setting of that name |
| ContextSensitivities.SkipSpace | FactGenerator/src/ContextSensitivity.cpp:6-7 | the extractor skips exactly the leading white space |
| ContextSensitivities.TokenEnd | FactGenerator/src/ContextSensitivity.cpp:6-7 | a token runs up to the next white space or the end of the text |
| ContextSensitivities.InStream.constructor | FactGenerator/src/ContextSensitivity.cpp:3-4 | a fresh stream over a text is at its start and good |
| ContextSensitivities.NextToken | FactGenerator/src/ContextSensitivity.cpp:6-7 | a failed stream reads the empty token and does not move; a good one reads a token with no white space in it |
| ContextSensitivities.ScanToken | FactGenerator/src/ContextSensitivity.cpp:6-7 | the two scans find the token's start after the white space and its end |
| ContextSensitivities.ReadToken | FactGenerator/src/ContextSensitivity.cpp:6-7 | reads exactly the token NextToken describes |
| ContextSensitivities.Extract | FactGenerator/src/ContextSensitivity.cpp:3-54 | operator>> never moves the stream backwards or past the end of its text |
| ContextSensitivities.Read | FactGenerator/src/ContextSensitivity.cpp:3-54 | reading from a stream leaves its text alone and moves it as Extract says: a name sets the output, anything else sets the failbit and keeps the output |
| ContextSensitivities.NameNoSpace | FactGenerator/include/ContextSensitivity.hpp:33-51 | no setting name is empty or holds white space, so a name is read as one token |
| ContextSensitivities.ExtractName | FactGenerator/src/ContextSensitivity.cpp:3-54 | a good stream holding a setting's name, then white space or nothing, reads that setting, stops right after the name and stays good |
| ContextSensitivities.ExtractFailed | FactGenerator/src/ContextSensitivity.cpp:3-54 | a failed stream reads nothing: output, position and failbit stay as they were |
| ContextSensitivities.ScriptValuesAgree | stats/stats.py:29-47 | the statistics script's context-sensitivity values are exactly the extractor's names, in the same order |
| Instructions.CmpPredicateName | FactGenerator/src/InstructionVisitor.cpp:695-756 | every comparison predicate has a mnemonic except the two BAD values |
| Instructions.RmwOpName | FactGenerator/src/InstructionVisitor.cpp:809-848 | every atomicrmw operation has a mnemonic except BAD_BINOP |
| Instructions.FastMathFlagsMeaning | FactGenerator/src/InstructionVisitor.cpp:763-793 | "fast" is written exactly for a fully fast floating-point operator; each other fast-math flag exactly when the operator is floating-point, not fully fast, and the flag is set; at most six flags |
| Instructions.WrapFlagsMeaning | FactGenerator/src/InstructionVisitor.cpp:795-806 | nuw and nsw are written exactly for set flags on an overflowing operator, exact exactly for a set flag on a possibly-exact one |
| Instructions.OperatorClassesDisjoint | FactGenerator/src/InstructionVisitor.cpp:763-807 | no binary operator is in two of the floating-point, overflowing and possibly-exact classes, so one group of flags applies at most |
| Instructions.CastTemplate | FactGenerator/include/InstructionVisitor.hpp:119-131 | the cast visitors (instr, from_operand, to_type) never report a malformed module |
| Instructions.BinaryTemplate | FactGenerator/include/InstructionVisitor.hpp:134-143 | the binary-operator visitors (instr, both operands, then the flags) never report a malformed module |
| Instructions.RetTemplate | FactGenerator/src/InstructionVisitor.cpp:213-221 | ret (the operand, or void_ when there is none) never reports a malformed module |
| Instructions.BrCondTemplate | FactGenerator/src/InstructionVisitor.cpp:223-241 | a conditional br never reports a malformed module |
| Instructions.BrUncondTemplate | FactGenerator/src/InstructionVisitor.cpp:223-241 | an unconditional br never reports a malformed module |
| Instructions.SwitchTemplate | FactGenerator/src/InstructionVisitor.cpp:243-263 | switch never reports a malformed module |
| Instructions.IndirectBrTemplate | FactGenerator/src/InstructionVisitor.cpp:265-276 | indirectbr never reports a malformed module |
| Instructions.InvokeTemplate | FactGenerator/src/InstructionVisitor.cpp:278-307 | invoke never reports a malformed module |
| Instructions.ResumeTemplate | FactGenerator/src/InstructionVisitor.cpp:309-312 | resume never reports a malformed module |
| Instructions.UnreachableTemplate | FactGenerator/src/InstructionVisitor.cpp:314-316 | unreachable never reports a malformed module |
| Instructions.AllocaTemplate | FactGenerator/src/InstructionVisitor.cpp:318-335 | alloca never reports a malformed module |
| Instructions.LoadTemplate | FactGenerator/src/InstructionVisitor.cpp:337-357 | load never reports a malformed module |
| Instructions.VaArgTemplate | FactGenerator/src/InstructionVisitor.cpp:359-365 | va_arg never reports a malformed module |
| Instructions.ExtractValueTemplate | FactGenerator/src/InstructionVisitor.cpp:367-382 | extractvalue never reports a malformed module |
| Instructions.StoreTemplate | FactGenerator/src/InstructionVisitor.cpp:384-405 | store never reports a malformed module |
| Instructions.CmpXchgTemplate | FactGenerator/src/InstructionVisitor.cpp:407-439 | cmpxchg never reports a malformed module |
| Instructions.AtomicRmwTemplate | FactGenerator/src/InstructionVisitor.cpp:441-453 | atomicrmw reports a malformed module only for BAD_BINOP |
| Instructions.FenceTemplate | FactGenerator/src/InstructionVisitor.cpp:455-460 | fence never reports a malformed module |
| Instructions.GepTemplate | FactGenerator/src/InstructionVisitor.cpp:462-496 | getelementptr never reports a malformed module |
| Instructions.PhiTemplate | FactGenerator/src/InstructionVisitor.cpp:498-514 | phi never reports a malformed module |
| Instructions.SelectTemplate | FactGenerator/src/InstructionVisitor.cpp:516-523 | select never reports a malformed module |
| Instructions.InsertValueTemplate | FactGenerator/src/InstructionVisitor.cpp:525-540 | insertvalue never reports a malformed module |
| Instructions.LandingPadTemplate | FactGenerator/src/InstructionVisitor.cpp:542-563 | landingpad never reports a malformed module |
| Instructions.CallTemplate | FactGenerator/src/InstructionVisitor.cpp:565-601 | call never reports a malformed module |
| Instructions.DbgDeclareTemplate | FactGenerator/src/InstructionVisitor.cpp:603-636 | llvm.dbg.declare (the call facts, then the variable's name and position) never reports a malformed module |
| Instructions.ICmpTemplate | FactGenerator/src/InstructionVisitor.cpp:638-647 | icmp reports a malformed module only for a BAD predicate |
| Instructions.FCmpTemplate | FactGenerator/src/InstructionVisitor.cpp:649-658 | fcmp reports a malformed module only for a BAD predicate |
| Instructions.ExtractElementTemplate | FactGenerator/src/InstructionVisitor.cpp:660-666 | extractelement never reports a malformed module |
| Instructions.InsertElementTemplate | FactGenerator/src/InstructionVisitor.cpp:668-675 | insertelement never reports a malformed module |
| Instructions.ShuffleVectorTemplate | FactGenerator/src/InstructionVisitor.cpp:677-685 | shufflevector never reports a malformed module |
| Instructions.FlagSteps | FactGenerator/src/InstructionVisitor.cpp:763-807 | one instr::flag fact per flag, in the order the flags are listed |
| Instructions.IndexedStepsAt | FactGenerator/src/InstructionVisitor.cpp:292-296 | the argument loop writes operand i with index i, one step per operand |
| Instructions.PairStepsAt | FactGenerator/src/InstructionVisitor.cpp:506-513 | the pair loop writes pair i's two operands, both with index i |
| Instructions.IndexStepsAt | FactGenerator/src/InstructionVisitor.cpp:377-381 | the index loop writes constant index i with its value |
| Instructions.GepStepsAt | FactGenerator/src/InstructionVisitor.cpp:467-491 | GEP operand k+1 is written as index k |
| Instructions.ClauseStepsAt | FactGenerator/src/InstructionVisitor.cpp:554-561 | clause i is written with index i |
| Instructions.SwitchLayout | FactGenerator/src/InstructionVisitor.cpp:243-263 | switch writes the condition and default label, case i's value and label with index i, then the number of cases |
| Instructions.IndirectBrLayout | FactGenerator/src/InstructionVisitor.cpp:265-276 | indirectbr writes label i with index i, the number of labels, then the address |
| Instructions.CallLayout | FactGenerator/src/InstructionVisitor.cpp:565-601 | call writes the callee, argument i with index i, tail_opt exactly for a tail call, then the calling convention |
| Instructions.CallingConvFact | FactGenerator/src/InstructionVisitor.cpp:597-600 | the calling-convention step never writes tail_opt |
| Instructions.InvokeLayout | FactGenerator/src/InstructionVisitor.cpp:278-307 | invoke writes the callee, argument i with index i, then the normal and the exception label |
| Instructions.GepLayout | FactGenerator/src/InstructionVisitor.cpp:462-496 | getelementptr writes the base, operand k+1 as index k, then the number of indices |
| Instructions.PhiLayout | FactGenerator/src/InstructionVisitor.cpp:498-514 | phi writes the type, entry i's value and block with index i, then the number of pairs |
| Instructions.PairsAt | FactGenerator/src/InstructionVisitor.cpp:254-261 | between a fixed head and tail, pair i's two operands sit at positions 2i and 2i+1 |
| Instructions.ExtractValueLayout | FactGenerator/src/InstructionVisitor.cpp:367-382 | extractvalue writes the base, index i with its value, then the number of indices |
| Instructions.InsertValueLayout | FactGenerator/src/InstructionVisitor.cpp:525-540 | insertvalue writes the base and inserted value, index i with its value, then the number of indices |
| Instructions.LandingPadLayout | FactGenerator/src/InstructionVisitor.cpp:542-563 | landingpad writes the type, cleanup exactly for a cleanup pad, clause i with index i, then the number of clauses |
| Instructions.ClausesAt | FactGenerator/src/InstructionVisitor.cpp:554-561 | between a fixed head and tail, clause i sits at its own position |
| Instructions.RunStepsPrefix | FactGenerator/src/FactGenerator.cpp:208 | a visit depends only on the steps it reaches |
| Instructions.RunConcat | FactGenerator/src/FactGenerator.cpp:208 | running two step lists one after the other is running their concatenation |
| Instructions.RunStepsSound | FactGenerator/src/FactGenerator.cpp:208 | a run with no malformed step succeeds |
| Instructions.RunStepsErr | FactGenerator/include/MalformedModule.hpp:3-10 | the first malformed step ends the run with its explanation |
| Instructions.RunStepsErrSticks | FactGenerator/include/MalformedModule.hpp:3-10 | once a run has failed, the further steps do not change the error |
| Instructions.StepperFails | FactGenerator/src/InstructionVisitor.cpp:25-91 | recording operands and writing facts never fail; only a malformed step does, with its explanation |
| Instructions.PlanSound | FactGenerator/src/InstructionVisitor.cpp:93-689 | an instruction that is not rejected has no malformed step in its template |
| Instructions.BadStep | FactGenerator/src/InstructionVisitor.cpp:638-658 | a rejected instruction's template holds its malformed step, with no earlier one |
| Instructions.VisitFails | FactGenerator/src/InstructionVisitor.cpp:745-755 | the visitor fails exactly on a BAD comparison predicate or a BAD atomicrmw binop, with the source's message |
| Instructions.RecordValueShape | FactGenerator/src/InstructionVisitor.cpp:34-60 | recordValue only appends constant or inline-asm facts, keeps the context frames, and records a variable exactly when the value is neither a constant nor inline asm |
| Instructions.ConstantOperandShape | FactGenerator/src/InstructionVisitor.cpp:39-47 | a constant operand only appends constant facts and records no variable |
| Instructions.AsmOperandShape | FactGenerator/src/InstructionVisitor.cpp:48-50 | an inline-asm operand only appends inline_asm facts and records no variable |
| Instructions.ShowsGrow | FactGenerator/src/InstructionVisitor.cpp:25-91 | a fact written stays written as more facts are appended |
| Instructions.StepShows | FactGenerator/src/InstructionVisitor.cpp:62-91 | a step that succeeds only appends facts, among them the one it stands for |
| Instructions.PlainShows | FactGenerator/src/InstructionVisitor.cpp:25-32 | a plain fact, a type fact or the declare extras always succeed and write their fact |
| Instructions.OperandShows | FactGenerator/src/InstructionVisitor.cpp:62-73 | writeInstrOperand writes the operand fact linking the instruction to the operand's refmode |
| Instructions.IndexedShows | FactGenerator/src/InstructionVisitor.cpp:75-87 | the indexed writeInstrOperand writes the operand fact with its index |
| Llvm.UniqueInteger | FactGenerator/src/InstructionVisitor.cpp:473 | getUniqueInteger gives an integer constant's value, or a splat vector's common element, and nothing for any other constant |
| Instructions.SmallIndex | FactGenerator/src/InstructionVisitor.cpp:473-474 | an index has a 16-bit value n exactly when it is the integer constant n, or a splat vector of it, with n below 2^16 (isIntN(16) on the unsigned value) |
| Instructions.GepShows | FactGenerator/src/InstructionVisitor.cpp:467-487 | a GEP index step writes getelementptr::index with the index and the operand's refmode, then constant::to_integer about that refmode exactly when the index has a 16-bit value, and with that value |
| Instructions.RunStepsShows | FactGenerator/src/FactGenerator.cpp:208 | a successful run keeps the earlier facts and shows every step it ran |
| Instructions.StepperShows | FactGenerator/src/InstructionVisitor.cpp:25-91 | each successful step keeps the earlier facts and shows its own fact |
| Instructions.VisitShows | FactGenerator/src/FactGenerator.cpp:208 | a successful visit keeps the facts written before it and writes the fact of every step of the instruction's template, including each small GEP index's constant::to_integer fact |
| Instructions.RecordValueM | FactGenerator/src/InstructionVisitor.cpp:34-60 | recordValue on the generator object: the refmode and the new state are those RecordValue gives |
| Instructions.WriteDeclare | FactGenerator/src/InstructionVisitor.cpp:606-635 | the llvm.dbg.declare extras on the generator: nothing for an undef address, else source_name and pos when known |
| Instructions.RunStepM | FactGenerator/src/InstructionVisitor.cpp:62-91 | one step on the generator, as RunStep says; a malformed step changes nothing |
| Instructions.VisitM | FactGenerator/src/FactGenerator.cpp:208 | visiting on the generator ends as Visit says: no error and Visit's state, or Visit's error |
| Instructions.RunStepsM | FactGenerator/src/FactGenerator.cpp:208 | the step loop on the generator ends as Run says |
| Instructions.RunOneM | FactGenerator/src/FactGenerator.cpp:208 | one more step extends the run so far, and a failure there is the whole run's failure |
| DebugNodes.Named | FactGenerator/src/debuginfo_unions.cpp:44-47 | one fact per name, in the order given, each about the node |
| DebugNodes.FlagSteps | FactGenerator/src/debuginfo_unions.cpp:35-49 | recordFlags writes only facts of the given predicate about the node |
| DebugNodes.Indexed | FactGenerator/src/debuginfo_types.cpp:120-126 | child i of a list is recorded by the given recorder and named with its position |
| DebugNodes.FileSteps | FactGenerator/src/debuginfo_scopes.cpp:17-30 | write_di_file starts with the file's id fact and writes only about the node |
| DebugNodes.NamespaceSteps | FactGenerator/src/debuginfo_scopes.cpp:36-65 | write_di_namespace starts with the id fact and writes only about the node |
| DebugNodes.LexBlockSteps | FactGenerator/src/debuginfo_scopes.cpp:71-93 | write_di_lex_block starts with the id fact and writes only about the node |
| DebugNodes.LexBlockFileSteps | FactGenerator/src/debuginfo_scopes.cpp:95-116 | write_di_lex_block_file starts with the id fact and writes only about the node |
| DebugNodes.SubprogramSteps | FactGenerator/src/debuginfo_scopes.cpp:122-248 | write_di_subprogram starts with the id fact and writes only about the node |
| DebugNodes.SubprogramScopeSteps | FactGenerator/src/debuginfo_scopes.cpp:130-160 | the generic scope section writes only the id, name, file and scope of the subprogram |
| DebugNodes.SubprogramTypeSteps | FactGenerator/src/debuginfo_scopes.cpp:166-186 | the second section writes only the linkage name, type, line and scope line |
| DebugNodes.SubprogramFlagSteps | FactGenerator/src/debuginfo_scopes.cpp:188-196 | the third section writes only the definition, local-to-unit and optimized facts |
| DebugNodes.SubprogramRefSteps | FactGenerator/src/debuginfo_scopes.cpp:198-207 | the fourth section writes only the containing type and the declaration |
| DebugNodes.SubprogramTailSteps | FactGenerator/src/debuginfo_scopes.cpp:209-247 | the last section writes only the virtuality, virtual index, flags and template parameters |
| DebugNodes.TypeCommonSteps | FactGenerator/src/debuginfo_types.cpp:205-250 | write_di_type_common starts with the type's id fact and writes only di_type facts about the node |
| DebugNodes.TypeHeadSteps | FactGenerator/src/debuginfo_types.cpp:215-223 | starts with the type's id fact and writes only its id, name and line |
| DebugNodes.TypeSizeSteps | FactGenerator/src/debuginfo_types.cpp:226-242 | only the bit size, alignment and offset |
| DebugNodes.TypeScopeSteps | FactGenerator/src/debuginfo_types.cpp:245-249 | only the scope and the flags |
| DebugNodes.CompositeKindSteps | FactGenerator/src/debuginfo_types.cpp:59-75 | at most one kind fact, for the five tags the switch names |
| DebugNodes.ElementSteps | FactGenerator/src/debuginfo_types.cpp:97-108 | element i's fact, if any, is in the element facts, and those are field, enumerator or subrange facts |
| DebugNodes.CompositeSteps | FactGenerator/src/debuginfo_types.cpp:47-133 | write_di_composite_type starts with the common type facts and writes only about the node |
| DebugNodes.CompositeOwnSteps | FactGenerator/src/debuginfo_types.cpp:56-132 | the composite's own part writes only di_composite_type facts |
| DebugNodes.CompositeBodySteps | FactGenerator/src/debuginfo_types.cpp:97-132 | the elements and references write only element, reference and file facts |
| DebugNodes.CompositeHeadSteps | FactGenerator/src/debuginfo_types.cpp:56-92 | the head writes only the id, kind, tag-kind and ABI identifier facts |
| DebugNodes.CompositeRefSteps | FactGenerator/src/debuginfo_types.cpp:111-132 | only the base type, vtable holder, template parameters and file |
| DebugNodes.DerivedSteps | FactGenerator/src/debuginfo_types.cpp:139-162 | write_di_derived_type starts with the common type facts and writes only about the node |
| DebugNodes.DerivedOwnSteps | FactGenerator/src/debuginfo_types.cpp:142-161 | the derived type's own part writes only di_derived_type facts |
| DebugNodes.ArraySteps | FactGenerator/src/debuginfo_types.cpp:180-198 | at most one fact per entry of the type array; entry i's fact, if any, is among them |
| DebugNodes.SubroutineSteps | FactGenerator/src/debuginfo_types.cpp:168-199 | write_di_subroutine_type starts with the common type facts and writes only about the node |
| DebugNodes.BasicSteps | FactGenerator/src/debuginfo_types.cpp:37-41 | write_di_basic_type starts with the common type facts and writes only about the node |
| DebugNodes.TupleSteps | FactGenerator/src/debuginfo_templates.cpp:68-84 | every fact is an elements fact naming a template-parameter node, and operand i's fact, if any, is among them |
| DebugNodes.ValueParamSteps | FactGenerator/src/debuginfo_templates.cpp:60-102 | write_di_tpl_value_param starts with the id fact and writes only value-parameter facts |
| DebugNodes.TemplateParamSteps | FactGenerator/src/debuginfo_templates.cpp:20-51 | write_di_tpl_param starts with the id fact and writes only about the node |
| DebugNodes.GlobalVarSteps | FactGenerator/src/debuginfo_variables.cpp:64-103 | write_di_global_variable starts with the id fact and writes only di_global_var facts |
| DebugNodes.LocalVarSteps | FactGenerator/src/debuginfo_variables.cpp:105-121 | write_di_local_variable starts with the id fact and writes only di_local_var facts |
| DebugNodes.VariableSteps | FactGenerator/src/debuginfo_variables.cpp:19-62 | write_di_variable starts with the id fact and writes only about the node |
| DebugNodes.VariableHeadSteps | FactGenerator/src/debuginfo_variables.cpp:24-53 | the facts every variable has are di_variable facts starting with the id |
| DebugNodes.EnumeratorSteps | FactGenerator/src/debuginfo_enums.cpp:12-27 | write_di_enumerator starts with the id fact and writes only about the node |
| DebugNodes.SubrangeSteps | FactGenerator/src/debuginfo_subranges.cpp:15-36 | write_di_subrange starts with the id fact and writes only about the node |
| DebugNodes.ImportedEntitySteps | FactGenerator/src/debuginfo_imports.cpp:20-63 | write_di_imported_entity starts with the id fact and writes only about the node |
| DebugNodes.LocationSteps | FactGenerator/src/debuginfo_locations.cpp:15-35 | write_di_location starts with the id fact and writes only about the node |
| DebugNodes.WriterShape | FactGenerator/include/DebugInfoProcessorImpl.hpp:40-64 | a recorder's writer writes something exactly when it takes the node and the node's class has a writer; it then starts with that class's id fact and writes only about the node |
| DebugNodes.WriterShapeFiles | FactGenerator/include/DebugInfoProcessorImpl.hpp:169-171 | the same, for the file and namespace recorders |
| DebugNodes.WriterShapeScopes | FactGenerator/include/DebugInfoProcessorImpl.hpp:172-173 | the same, for the scope and type recorders |
| DebugNodes.ScopeShape | FactGenerator/src/debuginfo_scopes.cpp:254-292 | write_di_scope writes something exactly for the scope classes with a writer, starting with their id fact |
| DebugNodes.TypeShape | FactGenerator/src/debuginfo_types.cpp:16-31 | write_di_type writes something exactly for the four type classes, starting with the di_type id fact |
| DebugNodes.WriterShapeSubprograms | FactGenerator/include/DebugInfoProcessorImpl.hpp:174-180 | the same, for the subprogram, template-parameter and enumerator recorders |
| DebugNodes.WriterShapeVariable | FactGenerator/include/DebugInfoProcessorImpl.hpp:176 | the same, for the variable recorder |
| DebugNodes.WriterShapeOthers | FactGenerator/include/DebugInfoProcessorImpl.hpp:181-184 | the same, for the subrange, imported-entity and location recorders |
| DebugNodes.RecordersAgree | FactGenerator/include/DebugInfoProcessorImpl.hpp:44-64 | the recorders share one node cache, and any two recorders that take a node write the same facts for it |
| DebugNodes.ScopeAgrees | FactGenerator/src/debuginfo_scopes.cpp:254-292 | a recorder that takes a scope node writes it as the scope recorder does |
| DebugNodes.ScopeWriter | FactGenerator/include/DebugInfoProcessorImpl.hpp:172 | the scope recorder runs write_di_scope |
| DebugNodes.ScopeCases | FactGenerator/src/debuginfo_scopes.cpp:254-292 | write_di_scope hands a type, file, namespace or subprogram to that class's writer |
| DebugNodes.OwnWriter | FactGenerator/include/DebugInfoProcessorImpl.hpp:169-178 | the file, namespace and subprogram recorders use their class's writer |
| DebugNodes.FlagsWritten | FactGenerator/src/debuginfo_unions.cpp:35-49 | recordFlags writes a flag name exactly when the flag word is non-zero and the name is one of its flags |
| DebugNodes.NamespaceRefs | FactGenerator/src/debuginfo_scopes.cpp:55-64 | a namespace names its file and its scope exactly when it has them |
| DebugNodes.LexBlockRefs | FactGenerator/src/debuginfo_scopes.cpp:83-92 | a lexical block names its file and its scope exactly when it has them |
| DebugNodes.LexBlockFileRefs | FactGenerator/src/debuginfo_scopes.cpp:106-115 | a lexical-block file names its file and its scope exactly when it has them |
| DebugNodes.InSection | FactGenerator/src/debuginfo_scopes.cpp:122-248 | a step found in no other section is in the template exactly when in its own section |
| DebugNodes.ScopeOwns | FactGenerator/src/debuginfo_scopes.cpp:130-160 | id, name, file and scope facts come only from the scope section |
| DebugNodes.TypeOwns | FactGenerator/src/debuginfo_scopes.cpp:166-186 | linkage-name, type and line facts come only from the second section |
| DebugNodes.FlagOwns | FactGenerator/src/debuginfo_scopes.cpp:188-196 | the three flag facts come only from the third section |
| DebugNodes.RefOwns | FactGenerator/src/debuginfo_scopes.cpp:198-207 | containing-type and declaration facts come only from the fourth section |
| DebugNodes.TailOwns | FactGenerator/src/debuginfo_scopes.cpp:209-247 | virtuality and template-parameter facts come only from the last section |
| DebugNodes.SubprogramScope | FactGenerator/src/debuginfo_scopes.cpp:144-160 | a subprogram's name is written exactly when not empty; its file and scope exactly when present |
| DebugNodes.ScopeSectionFacts | FactGenerator/src/debuginfo_scopes.cpp:144-160 | the same, within the scope section |
| DebugNodes.SubprogramType | FactGenerator/src/debuginfo_scopes.cpp:166-186 | the linkage name is written exactly when not empty, the type exactly when present, the line and scope line always |
| DebugNodes.TypeSectionFacts | FactGenerator/src/debuginfo_scopes.cpp:166-186 | the same, within the second section |
| DebugNodes.SubprogramFlags | FactGenerator/src/debuginfo_scopes.cpp:188-196 | is_definition, is_local_to_unit and is_optimized are written exactly when the flag holds |
| DebugNodes.FlagSectionFacts | FactGenerator/src/debuginfo_scopes.cpp:188-196 | the same, within the third section |
| DebugNodes.SubprogramRefs | FactGenerator/src/debuginfo_scopes.cpp:198-207 | the containing type and the declaration are named exactly when present |
| DebugNodes.RefSectionFacts | FactGenerator/src/debuginfo_scopes.cpp:198-207 | the same, within the fourth section |
| DebugNodes.SubprogramTail | FactGenerator/src/debuginfo_scopes.cpp:209-247 | virtuality and virtual index are written exactly for a virtual subprogram; the template-parameter facts are exactly parameter i with index i |
| DebugNodes.VirtualSectionFacts | FactGenerator/src/debuginfo_scopes.cpp:209-222 | the same for virtuality and virtual index, within the last section |
| DebugNodes.TailSectionFacts | FactGenerator/src/debuginfo_scopes.cpp:239-247 | the template-parameter facts of the last section are exactly parameter i with index i |
| DebugNodes.TypeCommonNamed | FactGenerator/src/debuginfo_types.cpp:215-223 | a type's name is written exactly when not empty, its line exactly when not zero |
| DebugNodes.TypeCommonSizes | FactGenerator/src/debuginfo_types.cpp:226-242 | bit size, alignment and offset are written exactly when the tag is not typedef, const, restrict or subroutine |
| DebugNodes.TypeCommonScope | FactGenerator/src/debuginfo_types.cpp:245-247 | a type names its scope exactly when it has one |
| DebugNodes.TypeHeadFacts | FactGenerator/src/debuginfo_types.cpp:215-223 | the same for name and line, within the head |
| DebugNodes.InHead | FactGenerator/src/debuginfo_types.cpp:205-250 | a step not in the second part is in the whole exactly when in the first |
| DebugNodes.InTail | FactGenerator/src/debuginfo_types.cpp:205-250 | a step not in the first part is in the whole exactly when in the second |
| DebugNodes.TypeCommonFirst | FactGenerator/src/debuginfo_types.cpp:16-31 | each of the four type writers begins with the common type facts |
| DebugNodes.StartsWith | FactGenerator/src/debuginfo_types.cpp:16-31 | a template begins with each of its leading sections |
| DebugNodes.CompositeKind | FactGenerator/src/debuginfo_types.cpp:59-83 | structures, classes, arrays, unions and enumerations facts are written exactly for their tags; the tag's name always |
| DebugNodes.CompositeOwn | FactGenerator/src/debuginfo_types.cpp:56-132 | every di_composite_type fact comes from the composite's own part |
| DebugNodes.HeadKinds | FactGenerator/src/debuginfo_types.cpp:59-83 | the same tag facts, within the head |
| DebugNodes.CompositeElements | FactGenerator/src/debuginfo_types.cpp:97-108 | element i is written as field, enumerator or subrange i by its class |
| DebugNodes.ElementStepFacts | FactGenerator/src/debuginfo_types.cpp:98-106 | the same for one element |
| DebugNodes.CompositeElementsClassed | FactGenerator/src/debuginfo_types.cpp:97-108 | every element fact names a node of a class its recorder takes |
| DebugNodes.CompositeRefs | FactGenerator/src/debuginfo_types.cpp:111-132 | the base type, vtable holder and file are named exactly when present; template parameter i with index i |
| DebugNodes.RefFacts | FactGenerator/src/debuginfo_types.cpp:111-132 | the same, within the reference part |
| DebugNodes.DerivedRefs | FactGenerator/src/debuginfo_types.cpp:142-161 | a derived type names its base type and file exactly when present, and always its tag's name |
| DebugNodes.DerivedOwnFacts | FactGenerator/src/debuginfo_types.cpp:142-161 | the same, within the derived type's own part |
| DebugNodes.SubroutineElements | FactGenerator/src/debuginfo_types.cpp:180-198 | a string entry i is written raw with index i, a node entry i as type element i; no more facts than entries |
| DebugNodes.VariableKindFacts | FactGenerator/src/debuginfo_variables.cpp:56-61 | a variable is written as a global exactly when it is one, as a local exactly when it is one |
| DebugNodes.VariableFacts | FactGenerator/src/debuginfo_variables.cpp:24-53 | a variable's name and line are written exactly when present, and its type, scope and file named exactly when present |
| DebugNodes.VariableHeadFacts | FactGenerator/src/debuginfo_variables.cpp:33-47 | the same for name and line, within the head |
| DebugNodes.VariableHeadRefs | FactGenerator/src/debuginfo_variables.cpp:36-53 | the same for type, scope and file, within the head |
| DebugNodes.LocalVarFacts | FactGenerator/src/debuginfo_variables.cpp:105-121 | a local's argument number is written exactly when not zero; the artificial and objectpointer flags exactly when set |
| DebugNodes.LocalKindFacts | FactGenerator/src/debuginfo_variables.cpp:105-121 | the same, within the local writer |
| DebugNodes.GlobalVarFacts | FactGenerator/src/debuginfo_variables.cpp:64-96 | a global's linkage name is written exactly when not empty; definition and local-to-unit exactly when set; the static member declaration exactly when present |
| DebugNodes.GlobalKindFacts | FactGenerator/src/debuginfo_variables.cpp:64-96 | the same, within the global writer |
| DebugNodes.TemplateParamKind | FactGenerator/src/debuginfo_templates.cpp:20-102 | type-parameter and value-parameter id facts exactly by kind; a constant value is written exactly when the value is that constant |
| DebugNodes.TemplateTuple | FactGenerator/src/debuginfo_templates.cpp:68-84 | a tuple's template-parameter operand i is named with index i, and every elements fact names a template-parameter node |
| DebugNodes.SubrangeFacts | FactGenerator/src/debuginfo_subranges.cpp:15-36 | the lower bound is written exactly before LLVM 13 and when not zero; the count always, zero when it is not a constant |
| DebugNodes.ImportedEntityFacts | FactGenerator/src/debuginfo_imports.cpp:20-63 | the name and line are always written; the scope is named exactly when present; a string entity is written raw and a scope entity as a node, exactly in those cases |
| DebugNodes.LocationRefs | FactGenerator/src/debuginfo_locations.cpp:15-35 | a location names its scope and inlined-at location exactly when present |
| DebugRecord.Record | FactGenerator/include/DebugInfoProcessorImpl.hpp:44-63 | di_recorder::record caches the node's id before writing, returns the id it caches, only adds cache entries and appends facts, and keeps every cached id the node's refmode |
| DebugRecord.CacheId | FactGenerator/include/DebugInfoProcessorImpl.hpp:54-61 | the cache gains exactly the node, mapped to its metadata refmode, before the writer runs |
| DebugRecord.Run | FactGenerator/include/DebugInfoProcessorImpl.hpp:61 | running a writer's steps only adds cache entries and appends facts, and keeps the cache sound |
| DebugRecord.Apply | FactGenerator/src/debuginfo_unions.cpp:19-29 | one step, after recording its child or writing its constant, only adds cache entries and appends facts |
| DebugRecord.RecordAll | FactGenerator/src/DebugInfoProcessorImpl.cpp:29-31 | recording a list of nodes leaves each of them cached and keeps the cache sound |
| DebugRecord.RecordUnits | FactGenerator/src/DebugInfoProcessorImpl.cpp:44-53 | every imported entity of every compile unit ends up cached |
| DebugRecord.Assocs | FactGenerator/src/debuginfo_variables.cpp:146-152 | the association loop only adds cache entries and appends facts |
| DebugRecord.WriteAssocs | FactGenerator/src/debuginfo_variables.cpp:145-157 | write_local_var_assocs only adds cache entries and appends facts |
| DebugRecord.Generate | FactGenerator/src/DebugInfoProcessorImpl.cpp:26-59 | generateDebugInfo only adds cache entries and appends facts, and keeps the cache sound |
| DebugRecord.UpperBound | FactGenerator/include/DebugInfoProcessorImpl.hpp:212-213 | the multimap's insertion point: after every entry with a key not greater, before every entry with a greater key |
| DebugRecord.ShowsMono | FactGenerator/include/DebugInfoProcessorImpl.hpp:223 | a fact written stays written, with the same child id, as cache and facts grow |
| DebugRecord.ApplyShows | FactGenerator/src/debuginfo_unions.cpp:19-29 | applying a step writes its fact, naming the child by its cached id |
| DebugRecord.RunShows | FactGenerator/include/DebugInfoProcessorImpl.hpp:61 | running a writer writes the fact of every one of its steps |
| DebugRecord.RecordWrites | FactGenerator/include/DebugInfoProcessorImpl.hpp:44-63 | recording an uncached node returns its refmode and writes every step of its writer with that id |
| DebugRecord.RecordId | FactGenerator/include/DebugInfoProcessorImpl.hpp:44-63 | with a sound cache, a recorder returns the node's metadata refmode whether cached or not |
| DebugRecord.RecordOnce | FactGenerator/include/DebugInfoProcessorImpl.hpp:50-52 | a second record of a node, by any recorder, returns the first id and writes nothing |
| DebugRecord.RecordsIdFact | FactGenerator/include/DebugInfoProcessorImpl.hpp:44-63 | recording a node its recorder takes writes the node's id fact in the node's own group |
| DebugRecord.GenerateCaches | FactGenerator/src/DebugInfoProcessorImpl.cpp:26-59 | after generateDebugInfo every node the finder listed and every variable at an undef address is cached |
| DebugRecord.AssocsWritten | FactGenerator/src/debuginfo_variables.cpp:145-152 | every multimap entry gets its association fact, with its variable node's cached id |
| DebugRecord.InsertEntryShape | FactGenerator/include/DebugInfoProcessorImpl.hpp:212-213 | multimap insertion keeps the keys sorted, adds exactly the new entry after the entries with equal keys, and keeps the others in order |
| DebugRecord.InsertEntrySorted | FactGenerator/include/DebugInfoProcessorImpl.hpp:212-213 | multimap insertion keeps the keys sorted |
| DebugRecord.DebugInfoProcessor.constructor | FactGenerator/include/DebugInfoProcessorImpl.hpp:208-223 | a new processor has an empty cache, no local-variable entries and no undef variables |
| DebugRecord.DebugInfoProcessor.RecordM | FactGenerator/include/DebugInfoProcessorImpl.hpp:44-63 | di_recorder::record on the processor: returns and leaves what Record gives |
| DebugRecord.DebugInfoProcessor.RunM | FactGenerator/include/DebugInfoProcessorImpl.hpp:61 | a writer's steps on the processor, as Run gives |
| DebugRecord.DebugInfoProcessor.ApplyM | FactGenerator/src/debuginfo_unions.cpp:19-29 | one step on the processor, as Apply gives |
| DebugRecord.DebugInfoProcessor.RecordAllM | FactGenerator/src/DebugInfoProcessorImpl.cpp:29-41 | one recorder over a list on the processor, as RecordAll gives |
| DebugRecord.DebugInfoProcessor.RecordUnitsM | FactGenerator/src/DebugInfoProcessorImpl.cpp:44-53 | the compile units' imported entities on the processor, as RecordUnits gives |
| DebugRecord.DebugInfoProcessor.GenerateDebugInfo | FactGenerator/src/DebugInfoProcessorImpl.cpp:26-59 | generateDebugInfo on the processor, as Generate gives |
| DebugRecord.DebugInfoProcessor.RecordLocalVarAssoc | FactGenerator/src/debuginfo_variables.cpp:123-143 | nothing without a variable; an undef address appends the variable to the undef list; otherwise the variable and the address's refmode go into the multimap |
| DebugRecord.DebugInfoProcessor.WriteLocalVarAssocs | FactGenerator/src/debuginfo_variables.cpp:145-157 | write_local_var_assocs on the processor, as WriteAssocs gives |
| DebugRecord.DebugInfoProcessor.AssocsM | FactGenerator/src/debuginfo_variables.cpp:146-152 | the association loop on the processor, as Assocs gives |

## Left out

- Contexts.ContextManager.PushContext: the instruction index is an unbounded `nat`. The source increments an `unsigned` (ContextManager.hpp:75, 137), which wraps to 0 after 2^32 instructions in one function. The model does not capture that wrap, so the ascending-prefix results assume fewer than 2^32 instructions per function.
- Contexts.ContextManager.ConstantCount: the slot counter is an unbounded `nat`. The source's `constantIndex++` on an `unsigned` (ContextManager.hpp:112, 138) wraps after 2^32 constants in one instruction. `Contexts.ConstantSlotsDistinct` holds only below that bound in the source.
- Contexts.Push: it shares the same unbounded counters as `Contexts.ContextManager.PushContext`.
- The `ContextManager` destructor, which pops the root frame (ContextManager.hpp:56), is not modelled. Dafny objects are never destroyed.
- The debug-build `assert`s are not modelled: the non-empty numbering (RefmodeEngineImpl.cpp:122) and the anchorless first frame (RefmodeEngineImpl.hpp:81-82). The model's well-formedness invariant gives the second one.
- FactGen.SigLoop: when a matching signature entry is malformed, the model returns `Err` with the message and discards the whole state, including the facts written before the error. The source throws `std::invalid_argument` (Signatures.cpp:127-131, 266), and no caller catches it, so the whole run ends. The facts that `emit_signatures` wrote before the throw may already be in the fact files. `Signatures.Emitted` keeps exactly that prefix of facts, and `Signatures.EmittedOutcome` states it. The loop-level model does not carry the prefix on.
- Instructions.Visit: a malformed module (a bad fcmp or icmp predicate, or a bad atomicrmw operation, InstructionVisitor.cpp:751-753, 845) calls `malformedModule`. That prints to standard error and exits the process (MalformedModule.hpp:3-10). The model returns `Err` with the same explanation, and the driver drops every fact written until then. The error text on standard error and the exit status are not modelled.
- LLVM-version branches: the model fixes one side of each `#if LLVM_VERSION_MAJOR` for a current LLVM (15 or later):
  - `constant::to_integer` for LLVM > 12 (Constants.cpp:55);
  - a GEP index's `constant::to_integer` text as the unsigned decimal value for LLVM > 12 (InstructionVisitor.cpp:477-483); older LLVM prints it signed;
  - constant GEP operands for LLVM > 13 (Constants.cpp:128);
  - the global variable's own (pointer) type, `gv.getType()`, for LLVM > 14 (Globals.cpp:71-72);
  - fixed and scalable vector types for LLVM > 10 (TypeVisitor.cpp:71-77), and opaque pointers (`PointerTy(None, _)`) beside typed ones for LLVM > 14 (TypeVisitor.cpp:125-129);
  - alloca, load and store alignment written as the log2 value for LLVM > 14 (InstructionVisitor.cpp:328, 346, 394). Older LLVM writes the raw alignment only when it is non-zero;
  - the called operand and the argument count of call and invoke for LLVM > 10 and LLVM > 13 (InstructionVisitor.cpp:281-291, 576-585), and the variable name of `llvm.dbg.declare` for LLVM > 10 (InstructionVisitor.cpp:620);
  - the debug-info writers' LLVM 5 and later forms: no namespace line (debuginfo_scopes.cpp:49), and no subprogram variables facts (debuginfo_scopes.cpp:228-237).
- DebugNodes.SubrangeSteps: the release is a parameter only for the lower bound, which is written below LLVM 13 (debuginfo_subranges.cpp:29). Its LLVM 6 and earlier count is not modelled (debuginfo_subranges.cpp:20).
- The types that `TypeVisitor::visitType` reports through `unknown()` write no kind facts in the model: x86_mmx, token, bfloat, x86_amx, and the DXIL and typed pointer kinds (TypeVisitor.cpp:84-108). Those are `X86MmxTy` and `OtherTy` in `TypeVisitor.KindFacts`. The model does not capture the diagnostic line that `unknown()` logs.
- The diagnostics that the enumeration tables log for unrecognised values are not modelled (llvm_enums.cpp:77, 124; `unknown()` in LlvmEnums.cpp). Nor are those of the template-value writer for unhandled values (debuginfo_templates.cpp:93-101). Those paths write no fact in the model, as in the source.
- Instructions.SmallIndex: on an undef or poison index, a constant expression, or a vector that is not a splat of one integer, `getUniqueInteger` (InstructionVisitor.cpp:473) fails LLVM's assertion, or without assertions reads whatever the first element holds. The model writes no `constant::to_integer` fact for these indices; `Llvm.UniqueInteger` is None there. An all-zero vector index (`zeroinitializer`, which the model classes as `OtherC`) gets no such fact either, although LLVM gives it the value 0.
- LlvmEnums.CallingConvName: the default branch for the C convention and unlisted conventions (LlvmEnums.cpp:52-53) returns `None`. The unqualified `to_string(cc)` there may resolve to the same overload, so the model does not claim `"cc<N>"`.
- DebugRecord: the source keys its node-id cache (`std::map`) and its local-variable multimap by node pointer, so iteration follows pointer order. The model orders both by `NodeId`. The order in which `write_local_var_assocs` writes is therefore the model's key order, not an address order.
- Stats.Curry: the source builds a `defaultdict(dict)` (stats.py:350-354). Reading a missing outer key from it returns a fresh `{}` and inserts it. The model returns a plain map, without that behaviour on missing keys.
- The statistics script's subprocess, file, plotting and floating-point `mean` parts are not modelled.
- Library calls are the fields of `Llvm.Host`, and the model states nothing about what they return:
  - operand and type printing, `ModuleSlotTracker` names;
  - `__cxa_demangle`, `std::regex_search`, `boost::hash`;
  - the ECMAScript grammar check of the `std::regex` constructor, and the text of the `std::regex_error` it throws (`Host.regexError`);
  - the DWARF tag, flag and virtuality strings;
  - `llvm::json::parse`. Signature files are taken as parsed JSON values.
- The walk order of the accumulated type set (`boost::unordered_set`) and of the variable-type map is unspecified in the source. The model takes the order as an input (`FactGen.Options.walk`) or states facts as sets.
- The unnamed-struct refmode contains an object address (RefmodeEngine.cpp:53). The model treats it as an opaque string from the host.
- DataLayout sizes, offsets and alignments are inputs carried by the type graph, not computed.
- The signature predicates are named as Signatures.cpp names them (`signature::none`, `signature::return_alloc`, …, from a predicate table that is not part of this model). The older `predicate_groups.hpp:659-677` declares them as `signature::pts_<stem>` instead. `Signatures.Kind` follows Signatures.cpp.
- Fact output is an append-only sequence of (predicate, columns). The gzip CSV writers, directories and option parsing are not modelled, nor are `main.cpp` and the Python bindings.
- The lowercase duplicates `variables.cpp`, `assembly.cpp` and `types.cpp` differ from `Variables.cpp`, `Assembly.cpp` and `Types.cpp` only in their includes. The same members model both.
- `llvm_enums.cpp` differs from `LlvmEnums.cpp` only in logging. The same tables model both.
- `functions.cpp` (the older `writeFunction`) differs from `Functions.cpp` in two ways. The attribute loops (`writeFnAttributes`, return attributes) are modelled in `Functions`. The pre-3.9 `hasUnnamedAddr` branch is not.
- `debuginfo_enums.cpp` copies three LLVM accessors into facts. Its fields appear in `DebugNodes` only as part of the enumerator writer.
