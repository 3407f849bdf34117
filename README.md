# pymsc decompiler core, modelled in Dafny

pymsc reads MSC script containers (bytecode scripts of a stack machine) and
turns them into C-like source text. This project models the core of that
pipeline:

1. **Reference analysis** (module `Disasm`). `emuScript` walks each script
   forward. It keeps a stack of references to the instructions whose results
   are still on the evaluation stack. It rewrites integer operands that are
   script offsets into script names. It records which local slots of a
   script are used as dynamic call targets. Both copies of the pass are
   modelled: disasmlib.py (`Current`) and the older disasm.py (`Legacy`).
2. **Label pass** (module `JumpLabels`). Every jump target becomes a
   `loc_<hex>` label, and a label item is inserted before each instruction
   that is a target. Both the disasmlib.py loop and the disasm.py loop are
   modelled.
3. **Type inference** (module `TypeInfer`).
   - `getGlobalVars` and `getLocalVarTypes` vote on the type of each
     variable slot.
   - `getFuncTypes` guesses each script's return type from what is pushed
     before its returns.
4. **Structuring** (module `Structure`). `pullOutLoops` and `pullOutGroups`
   turn branches, else markers, call groups and casts into nested blocks.
   `lastCommand` is here too.
5. **Reconstruction**. Module `Reconstruct` holds the specification
   functions. The class `Decompiler.Decompiler` runs the source's
   backward-cursor walk over its fields: `getArgs`, `decompileCmd`,
   `ifToTernaryOp`, `decompileFunc` and `decompile`. Each method is proved
   to compute its specification function.
6. **Printing** (module `Ast`). Every syntax-tree node's `__str__` and the
   `_parenthesisTypes` bracketing rule.

The opcode tables are in module `Opcodes`. Python list, indexing, slicing,
`hex` and `"%X"` behaviour, and Python exceptions (as `Outcome.Raise`) are in
module `PyOps`. The instruction and command-list data model is in module
`Bytecode`.

Where the source can loop forever, the model takes an explicit `fuel`
bound. This happens in `emuScript` when a jump goes back, and in
`pullOutGroups` when a label lies behind the cursor. Running out of fuel is
a distinct outcome: `OutOfFuel`, or the `Diverged` error.

Where the documented design of the system and its code differ, the model follows
the code:

- In `emuScript`, the stack is shared with the recursive sub-walks. It is not
  copied.
- In `getFuncTypes`, a script's type never depends on other scripts. So the
  passes after the first only repeat it, and `Pass` is proved to return the
  same list when given it back.
- The printer brackets operands by node kind (`_parenthesisTypes`), not by
  operator precedence.

Module `AstFacts` also works through the printer's own example (ast2str.py:203-215):
`SmallIntConstant`, `TernExample`, `AddExample`, `StatementsOfOne`,
`PrintfExample` and `PrinterExample` compute the text of particular nodes.
They are worked examples, not general properties, and the table below does
not list them.

## Model

| member | source | states |
|---|---|---|
| PyOps.At | mscdec.py:261 | Python indexing `s[k]`: defined exactly for `-len <= k < len` (negative counts from the end), and the value is an element of `s` |
| PyOps.Slice | mscdec.py:516 | Python slicing `s[a:b]`: agrees with the plain subsequence when the bounds are in range, is never longer than `s`, and is strictly shorter when it starts after the first element |
| PyOps.HexDigitsRoundTrip | ast2str.py:54 | the hexadecimal digits of `n` are non-empty, unsigned, and read back to `n` |
| PyOps.HexRoundTrip | ast2str.py:54 | `hex(n)` loses nothing: reading the text back gives `n`, for negative `n` too |
| PyOps.UpperHexRoundTrip | disasmlib.py:222 | `"%X" % n` reads back to `n` |
| PyOps.UpperHexInjective | disasmlib.py:222 | distinct targets give distinct `loc_%X` label texts |
| PyOps.HexDigitNotX | disasmlib.py:222 | `"%X"` digits contain neither `x` nor `-` |
| PyOps.ZeroLeadsAlone | disasmlib.py:222 | only zero is written with a leading `0` |
| PyOps.Join | ast2str.py:29 | `sep.join([])` is the empty string |
| Bytecode.IndexOfTarget | mscdec.py:501 | `commands.index(label)`: the FIRST position holding that label, or no position at all |
| Bytecode.FirstIndex | mscdec.py:478-480 | the first occurrence of an item at or after a cursor, or none |
| Bytecode.IndexOfPosition | disasmlib.py:127 | `getIndexOfInstruction`: the index of an instruction at the given file position, or none when no instruction is there |
| Bytecode.PositionFrom | disasmlib.py:127 | the same search from a cursor |
| Bytecode.SizeOfElement | mscdec.py:307-404 | an element of a command list is no bigger than the list, which bounds the recursion into nested blocks |
| Bytecode.SizeOfMember | mscdec.py:307-404 | the same for membership |
| Disasm.NameRef | disasmlib.py:40-41 | a resolved offset becomes a `ScriptRef` in disasmlib.py and a plain string in disasm.py (disasm.py:35-36) |
| Disasm.ScriptNames | disasmlib.py:200-203 | every script's starting position is named |
| Disasm.ScriptNamesOnlyStarts | disasmlib.py:200-203 | only starting positions of scripts are named |
| Disasm.ScriptNamesFirst | disasmlib.py:200-203 | a position shared by several scripts keeps the name of the first of them |
| Disasm.Exponent | disasmlib.py:158 | the unbiased exponent field lies in -127..128 |
| Disasm.Mantissa | disasmlib.py:159 | the mantissa field lies below 2^23 |
| Disasm.GuessIsFloat | disasmlib.py:153-181 | zero is never a float; a pattern outside 32 bits raises (the `struct.pack` error); a positive pattern judged a float is not huge |
| Disasm.FieldsRebuild | disasmlib.py:157-159 | sign, exponent and mantissa together rebuild the 32-bit pattern |
| Disasm.PlusMinusZeroNeedsSign | disasmlib.py:170-172 | a nonzero pattern with zero exponent and mantissa has its sign bit set, so the `+- 0.0` test only sees what the sign test already accepted |
| Disasm.GuessIsFloatWithoutZeroTest | disasmlib.py:153-181 | `guessIsFloat` equals the same decision with the `+- 0.0` test removed |
| Disasm.RewritesTransitive | disasmlib.py:33-53 | the relation "only first parameters were resolved" composes over successive rewrites |
| Disasm.Popped | disasmlib.py:71-78 | `stack.pop()` repeated `popCount` times, stopping silently at an empty stack: the top entries, topmost first |
| Disasm.Below | disasmlib.py:71-78 | what is left under the popped entries |
| Disasm.AddOnce | disasmlib.py:49-50 | `append` guarded by `not in`: the slot is present afterwards, nothing else is added, and a list without duplicates stays so |
| Disasm.JumpScriptName | disasmlib.py:107-111 | a call target's script: looked up when it is still an offset, taken as-is when it is already a name |
| Disasm.LoadSlotsStable | disasmlib.py:44-50 | resolving first parameters never changes which local slots the popped loads read |
| Disasm.Shrinks | disasmlib.py:113-115 | each callee-slot step either leaves the recorded slots alone or adds one new slot of the finite set |
| Disasm.SteadyTransitive | disasmlib.py:60-151 | what every analysis action keeps composes over successive actions: instructions change only in first parameters, slot lists only grow, and lists without duplicates keep none |
| Disasm.Resolved | disasmlib.py:37-41 | a constant push of a known script offset, resolved: a first-parameter rewrite whose operand is the script's name (`ScriptRef` in disasmlib.py) and no longer an integer |
| Disasm.UpdateRef | disasmlib.py:33-53 | `updateScriptReference`: an `index` outside `popped` raises `IndexError`; a resolvable push at `popped[index]` gets its script's name and nothing else changes; a local load there adds its slot, once, to the walking script's list and nothing else changes; it raises exactly on a push without parameters or a load without its slot parameter; any other entry leaves the state as it was |
| Disasm.Printf | disasmlib.py:86-88 | nothing popped raises `IndexError`; a constant format push holding a string-table index gets that string; a non-constant or string operand leaves the state as it was; only `popped[-1]` may change |
| Disasm.SysCall | disasmlib.py:90-98 | sys calls 0 and 3 run `updateScriptReference` on `popped[0]`, 0x29 on `popped[1]`, any other changes nothing; a call without a second parameter raises `IndexError` |
| Disasm.GlobalStore | disasmlib.py:100-101 | a store into global `k` runs `updateScriptReference` on `popped[0]` exactly when `gvIsOffset[k]` is set; a store to a local changes nothing; a store without parameters, or into a global the table does not list, raises `IndexError` |
| Disasm.FirstPass | disasmlib.py:81-101 | by opcode: a call runs `updateScriptReference` on `popped[0]`, `0x2c` the printf step (disasmlib.py only), `0x2d` the sys-call step, `0x1c` the global-store step; any other opcode changes nothing |
| Disasm.ArgIndex | disasmlib.py:117 | the argument for callee slot `n` is `popped[-(n+1)]` in disasmlib.py and `popped[n+1]` in disasm.py:107 |
| Disasm.Forward | disasmlib.py:113-117 | the loop over the callee's slot list keeps the stack and rewrites only first parameters, although the list may grow while it is walked; when it does not raise, every slot it walked is an integer |
| Disasm.SlotStore | disasmlib.py:103-105 | a store into a local slot that the script's list holds runs `updateScriptReference` on `popped[0]`; a store to a global, or to a slot not in the list, changes nothing |
| Disasm.CallForward | disasmlib.py:106-117 | nothing popped raises `IndexError`; a call whose target is not a constant push changes nothing; otherwise, when the target's script has recorded slots, the forward loop runs over them, and when it has none nothing changes |
| Disasm.LaterPass | disasmlib.py:102-117 | by opcode: a store (0x1c, 0x41) runs the slot-store step when the script has recorded slots, a call runs the call-forward step; any other opcode changes nothing |
| Disasm.Act | disasmlib.py:71-117 | popping the operands and running the pass's step rewrites only first parameters and grows slot lists, and leaves the stack without the popped operands |
| Disasm.Pushes | disasmlib.py:119-124 | the pushes after a step add the instruction before a `0x32` (the last one at index 0), then the instruction itself when its push bit is set, and keep every stack entry an index into the script |
| Disasm.StepFn | disasmlib.py:70-124 | one step rewrites only first parameters and grows slot lists, and the new stack is the old one minus the popped operands, plus the instruction before a `0x32` (the last one, `script[-1]`, at index 0), plus the instruction itself when its push bit is set |
| Disasm.Next | disasmlib.py:140-148 | a jump or else moves the cursor to the first instruction at its target position, or to `i + 1` when there is none; a jump without parameters raises `IndexError`; any other instruction moves it to `i + 1` |
| Disasm.Run | disasmlib.py:66-151 | the walk loop ends `Rejoined` (`return False`) only at a cursor inside the script, at or past the end position, with an empty stack, and `RanOffEnd` (`return True`) only with the cursor past the last instruction; the walk rewrites only first parameters and grows slot lists |
| Disasm.Proceed | disasmlib.py:70-151 | one pass through the loop body, the turn and then the move on, has `Run`'s exit facts |
| Disasm.Turn | disasmlib.py:70-138 | the step and, for a conditional branch, its sub-walk rewrite only first parameters and grow slot lists |
| Disasm.Advance | disasmlib.py:140-151 | moving the cursor on and walking on has `Run`'s exit facts |
| Disasm.Branch | disasmlib.py:126-138 | a branch with no instruction at its target raises `TypeError` (`script[None - 1]`); the branch rewrites only first parameters and grows slot lists |
| Disasm.SubWalk | disasmlib.py:127-136 | the sub-walk, ending at the block's end after an else or jump and at the target otherwise, rewrites only first parameters and grows slot lists |
| Disasm.Emu | disasmlib.py:60-151 | `emuScript` has `Run`'s exit facts; a top-level walk empties `clearedPaths` first |
| Disasm.TopWalk | disasmlib.py:207-215 | `emuScript(script, 0, [], pass)` from `disasm`: on success the script and slot table it leaves are a first-parameter rewrite and a growth of the ones it started from |
| Disasm.Originals | disasmlib.py:207-211 | the scripts before any pass: one entry per script, its read instructions |
| Disasm.PassFrom | disasmlib.py:209-211 | one pass gives one first-parameter rewrite of each script; the slot table only grows and stays free of duplicates |
| Disasm.Passes | disasmlib.py:207-211 | the two passes give one first-parameter rewrite of each script |
| Disasm.FinalWalks | disasmlib.py:213-215 | the third walks give one rewrite of each remaining script, in order |
| Disasm.Analysed | disasmlib.py:205-215 | the whole reference analysis gives one first-parameter rewrite of each read script |
| Disasm.AnalysedOf | disasmlib.py:234 | the analysed instructions of each disassembly, in order |
| Disasm.Analyzer.constructor | disasmlib.py:205 | the analysis starts with no scripts walked and an empty `scriptCalledVars` |
| Disasm.Analyzer.Load | disasmlib.py:62-64 | a top-level walk starts on the script with an empty stack and `clearedPaths`, keeping `scriptCalledVars` |
| Disasm.Analyzer.PopOperands | disasmlib.py:71-78 | pops exactly `Popped`/`Below` of the old stack, and every popped reference is an instruction of the script |
| Disasm.Analyzer.UpdateScriptReference | disasmlib.py:33-53 | the method on the analyser's fields reaches the state `UpdateRef` gives, or raises its exception |
| Disasm.Analyzer.PrintfFormat | disasmlib.py:86-88 | computes `Printf` |
| Disasm.Analyzer.SysCallStep | disasmlib.py:90-98 | computes `SysCall` |
| Disasm.Analyzer.GlobalStoreStep | disasmlib.py:100-101 | computes `GlobalStore` |
| Disasm.Analyzer.FirstPassStep | disasmlib.py:81-101 | computes `FirstPass` |
| Disasm.Analyzer.ForwardArguments | disasmlib.py:113-117 | the `for localVarNum in scriptCalledVars[jumpScriptName]` loop computes `Forward` from the start of the list |
| Disasm.Analyzer.SlotStoreStep | disasmlib.py:103-105 | computes `SlotStore` |
| Disasm.Analyzer.CallForwardStep | disasmlib.py:106-117 | computes `CallForward` |
| Disasm.Analyzer.LaterPassStep | disasmlib.py:102-117 | computes `LaterPass` |
| Disasm.Analyzer.ActStep | disasmlib.py:71-117 | computes `Act` |
| Disasm.Analyzer.Step | disasmlib.py:70-124 | computes `StepFn` |
| Disasm.Analyzer.WalkBranch | disasmlib.py:126-138 | computes `Branch`: the same sub-walk result, final state and exceptions |
| Disasm.Analyzer.SubWalkStep | disasmlib.py:127-136 | computes `SubWalk` |
| Disasm.Analyzer.TakeTurn | disasmlib.py:70-138 | computes `Turn` |
| Disasm.Analyzer.ProceedStep | disasmlib.py:70-151 | the loop body computes `Proceed`: it stops with `Proceed`'s result and state, or moves to the cursor from which `Proceed` walks on |
| Disasm.Analyzer.WalkTurn | disasmlib.py:66-151 | one turn of the loop stops with `Run`'s result and state (rejoined, out of fuel, or raised), or moves to the cursor from which `Run` walks on with one step less |
| Disasm.Analyzer.WalkFrom | disasmlib.py:66-151 | the `while i < len(script)` loop computes `Run`: the same walk result and final state, and the same exceptions |
| Disasm.Analyzer.EmuScript | disasmlib.py:60-151 | computes `Emu`: the same walk result and final state, and the same exceptions |
| Disasm.LabelScript | disasmlib.py:218-232 | the label pass raises exactly when some jump lacks an integer target; on success it is the variant's relabelling plus label insertion |
| Disasm.RunPass | disasmlib.py:209-211 | `for script in mscFile: emuScript(script, 0, [], i)` computes `PassFrom` and leaves its slot table in the analyser |
| Disasm.AnalysisPasses | disasmlib.py:207-211 | the two passes compute `Passes` |
| Disasm.FinishScript | disasmlib.py:213-232 | the third walk computes `TopWalk` with pass 2; the result raises exactly when that walk or the label pass of the walked script does, and otherwise is the label pass's output for the walked script |
| Disasm.FinishNext | disasmlib.py:212-232 | one turn of the loop over the scripts raises only when `FinalWalks` raises or a walked script fails the label pass, and otherwise extends the finished prefix by the next script's walk |
| Disasm.FinishScripts | disasmlib.py:212-232 | raises exactly when `FinalWalks` raises or some walked script fails the label pass; otherwise one disassembly per script, whose analysed instructions are exactly `FinalWalks`, each the label pass's output |
| Disasm.AppendStep | disasmlib.py:212-232 | one more finished script moves its walk from the remaining walks to the finished prefix |
| Disasm.ResultRaises | disasmlib.py:212-232 | a script whose walk or label pass raises makes the whole of its final walks raise or fail the label pass |
| Disasm.Disassemble | disasmlib.py:192-234 | `disasm` raises exactly when `Analysed` raises or some analysed script fails the label pass; otherwise one disassembly per script, whose analysed instructions are exactly `Analysed`, each a first-parameter rewrite of the read script followed by the label pass |
| DisasmFacts.RanOffEndPastLast | disasmlib.py:66 | a cursor past the last instruction ends the walk as `RanOffEnd` (`return True`), state unchanged |
| DisasmFacts.RejoinsAtEnd | disasmlib.py:67-68 | at or past the end position with an empty stack the walk ends `Rejoined` (`return False`) before any step |
| DisasmFacts.RejoinedExactly | disasmlib.py:66-68 | with the cursor inside the script, the walk ends `Rejoined` at once exactly when an end position is given, the cursor is at or past it and the stack is empty |
| DisasmFacts.ContinuesAtNext | disasmlib.py:140-148 | after a step that neither ends the walk nor starves it, the walk goes on from `Next` with one step less |
| DisasmFacts.NextOfPlain | disasmlib.py:147-148 | an instruction that is no jump moves the cursor by one |
| DisasmFacts.NextOfJump | disasmlib.py:140-145 | a jump moves the cursor to the first instruction whose position is its target |
| DisasmFacts.RunMore | disasmlib.py:66-151 | a walk that ends within `budget` steps ends the same way, in the same state, with one step more |
| DisasmFacts.AdvanceMore | disasmlib.py:140-151 | the same for moving on |
| DisasmFacts.TurnMore | disasmlib.py:70-138 | the same for a step and its branch |
| DisasmFacts.BranchMore | disasmlib.py:126-138 | the same for a branch |
| DisasmFacts.SubWalkMore | disasmlib.py:127-136 | the same for a sub-walk |
| DisasmFacts.EmuMore | disasmlib.py:60-151 | the same for `emuScript` |
| DisasmFacts.EmuAnyMore | disasmlib.py:60-151 | a walk that ends within `fuel` steps ends the same way with any larger bound |
| DisasmFacts.TopWalkMore | disasmlib.py:209-215 | a top-level walk that does not diverge gives the same result with any larger bound |
| DisasmFacts.PassFromMore | disasmlib.py:209-211 | the same for one pass |
| DisasmFacts.PassesMore | disasmlib.py:207-211 | the same for the two passes |
| DisasmFacts.FinalWalksMore | disasmlib.py:213-215 | the same for the third walks |
| DisasmFacts.AnalysedMore | disasmlib.py:205-215 | the whole reference analysis, when it does not diverge, gives the same scripts with any larger bound: the bound only cuts off walks the source would never end |
| DisasmFacts.UpdateRefResolvedFrom | disasmlib.py:33-53 | `updateScriptReference` changes no instruction except by resolving a resolvable push |
| DisasmFacts.ResolvedFromTransitive | disasmlib.py:37-41 | a resolved push is no integer push any more, so resolutions compose |
| DisasmFacts.DoneKept | disasmlib.py:33-53 | what `updateScriptReference` did to an entry stays done through later resolutions and slot-list growth |
| DisasmFacts.DoneFrom | disasmlib.py:33-53 | what it did in a state reached by resolutions counts as done from the earlier state |
| DisasmFacts.ArgIndexSelects | disasmlib.py:116-117 | `popped[-(n+1)]` (disasmlib.py) and `popped[n+1]` (disasm.py:107) select those entries whenever `n + 1 < len(popped)` |
| DisasmFacts.ForwardKeeps | disasmlib.py:113-117 | the forward loop changes instructions only by resolution, and every slot it walks is an integer |
| DisasmFacts.ForwardResolves | disasmlib.py:113-117 | every callee slot `n` with `n + 1 < len(popped)` has its argument `popped[ArgIndex(n)]` resolved, or its slot recorded when it is a local load |
| DisasmFacts.LiftDone | disasmlib.py:113-117 | the resolutions after one loop turn still count from the state before it |
| DisasmFacts.FirstPassResolvesCall | disasmlib.py:83-84 | a call in the first pass resolves its target operand `popped[0]`, or records its slot when it is a local load |
| DisasmFacts.GlobalStoreResolves | disasmlib.py:100-101 | a store into an offset-holding global resolves the stored operand `popped[0]` |
| DisasmFacts.CallForwardResolves | disasmlib.py:106-117 | a call through a constant script reference resolves the argument of every recorded slot of the called script |
| JumpLabels.LocLabelInjective | disasmlib.py:222 | two targets share a `loc_%X` label only when they are equal |
| JumpLabels.TargetsMembers | disasmlib.py:219-220 | the target set holds exactly the targets of the well-formed jumps |
| JumpLabels.Relabel | disasmlib.py:223 | the jump keeps opcode, push bit, position and other parameters, and its target becomes the target's label |
| JumpLabels.FirstJumpToMeaning | disasm.py:171-173 | "first jump to its target" means that no earlier jump has the same target |
| JumpLabels.RelabelAll | disasmlib.py:218-223 | the relabelled script has the same length |
| JumpLabels.FirstRelabelAll | disasm.py:168-173 | the same for the disasm.py loop |
| JumpLabels.RelabelAllIs | disasmlib.py:218-223 | the per-index description determines the whole relabelled script |
| JumpLabels.FirstRelabelAllIs | disasm.py:168-173 | the same for the disasm.py loop |
| JumpLabels.FirstStep | disasm.py:171-173 | in disasm.py only the first jump to each target is relabelled; its later jumps keep their integer target |
| JumpLabels.TargetsPrefix | disasmlib.py:219-222 | scanning one more jump adds exactly its target |
| JumpLabels.RelabelledSnoc | disasmlib.py:218-223 | the loop's output grows by the relabelled instruction |
| JumpLabels.FirstRelabelledSnoc | disasm.py:168-173 | the same for the disasm.py loop |
| JumpLabels.LabelJump | disasmlib.py:219-223 | one iteration raises exactly on a jump without an integer target, and otherwise extends the output and the label map |
| JumpLabels.LabelJumps | disasmlib.py:218-223 | the loop raises exactly when some jump lacks an integer target; otherwise `jumpPositions` holds every target, each with label `loc_%X`, and the instructions are relabelled |
| JumpLabels.LabelFirstJump | disasm.py:169-173 | one iteration of the disasm.py loop |
| JumpLabels.LabelFirstJumps | disasm.py:168-173 | the same as `LabelJumps`, with only first jumps relabelled |
| JumpLabels.Cmds | disasmlib.py:225 | the command list before insertion holds each instruction in order |
| JumpLabels.LabelledSnoc | disasmlib.py:225-232 | the labelled list grows by the optional label and the instruction |
| JumpLabels.CmdsUncons | disasmlib.py:225-232 | the untouched suffix splits at its first instruction |
| JumpLabels.InsertStep | disasmlib.py:228-230 | `insert(j, label)` puts the label directly before the instruction |
| JumpLabels.InsertInvariant | disasmlib.py:225-232 | one iteration keeps "labelled prefix + untouched suffix" and moves the cursor past the label it inserted |
| JumpLabels.InsertLabels | disasmlib.py:225-232 | the insertion loop (disasm.py:175-182 is the same) yields the labelled list |
| JumpLabels.StripLabelsAppend | disasmlib.py:225-232 | removing labels distributes over concatenation |
| JumpLabels.StripBeforeCmd | disasmlib.py:228-230 | removing labels undoes one insertion step |
| JumpLabels.CmdsSnoc | disasmlib.py:225-232 | the instruction list splits at its last element |
| JumpLabels.LabelsStripBack | disasmlib.py:225-232 | insertion adds only labels: removing them gives back the instructions in order |
| JumpLabels.LabelsAdjacent | disasmlib.py:225-232 | every label is directly followed by the instruction it names, and every target instruction is directly preceded by its label |
| JumpLabels.LabelPresent | disasmlib.py:228-229 | the label of every target instruction is in the list |
| JumpLabels.JumpResolves | mscdec.py:501 | after the label pass, `commands.index(label)` finds the label, and the item after it is the target instruction |
| TypeInfer.Consumer | mscdec.py:124-140 | the first later cast or operand-consuming command, with none before it |
| TypeInfer.ScanConsumer | mscdec.py:123-140 | the scan after a load votes as the first consumer found: float when it uses floats, otherwise int when it uses ints, otherwise no vote, and no vote after a cast |
| TypeInfer.MaxSlot | mscdec.py:108-109 | `globalVarCount` is at least 0 and at least every global slot referenced |
| TypeInfer.MaxSlotAttained | mscdec.py:108-109 | it is 0 or an actually referenced slot |
| TypeInfer.ReferencesInScope | mscdec.py:106 | every counted reference comes from a variable command of the scope with that slot |
| TypeInfer.LoadVoteFromFirstConsumer | mscdec.py:124-140 | a load's vote is decided by its first consumer, which is no cast |
| TypeInfer.VotesSnoc | mscdec.py:110-139 | one more reference adds at most one vote, to its own slot and kind |
| TypeInfer.VotesAppend | mscdec.py:102-140 | votes over several scripts add up |
| TypeInfer.SlotTypeOfConcatenation | mscdec.py:144-148 | a slot is float exactly when its float votes over all scripts exceed its int votes |
| TypeInfer.ReferencesRaisePersists | mscdec.py:102-140 | an exception in the scan stops it for good |
| TypeInfer.AllReferencesRaisePersists | mscdec.py:102-140 | the same over all scripts |
| TypeInfer.TalliedCountsVotes | mscdec.py:102-140 | the `varInt` and `varFloat` dictionaries count exactly the int and float votes for each slot, and the global count is `MaxSlot` |
| TypeInfer.TalliedSnoc | mscdec.py:110-139 | counting one more reference updates the dictionaries by that reference alone |
| TypeInfer.ReadReference | mscdec.py:104-140 | the reference read at one item is the specified one |
| TypeInfer.Count | mscdec.py:110-139 | counting a reference gives the tally of the longer list |
| TypeInfer.ReferencesStep | mscdec.py:103-140 | the scan of one more item raises, adds one reference, or adds none |
| TypeInfer.TallyItem | mscdec.py:103-140 | one item's turn in the tally loop keeps "counts == tally of the references so far" |
| TypeInfer.Tally | mscdec.py:103-140 | one script's loop raises exactly when the scan does; otherwise it returns the tally of its references |
| TypeInfer.MajorityIsSlotType | mscdec.py:144-148 | the dictionary test `floatCount > intCount` gives the slot's majority type |
| TypeInfer.SlotTypes | mscdec.py:142-148 | one type per slot `0..n-1` (none for negative `n`), each decided by majority |
| TypeInfer.GetLocalVarTypes | mscdec.py:155-201 | `varCount` types (none when negative); slot `i` is "float" exactly when its float votes exceed its int votes; raises exactly when the scan does |
| TypeInfer.AllReferencesStep | mscdec.py:102 | one more script appends its references |
| TypeInfer.TallyScript | mscdec.py:102-140 | one script's turn in the loop over all scripts |
| TypeInfer.TallyScripts | mscdec.py:102-140 | the loop over all scripts returns the tally of all their global references, or their first exception |
| TypeInfer.GetGlobalVars | mscdec.py:98-150 | declares `global0 .. globalN` for the highest referenced slot N, each typed by majority vote over all scripts; raises exactly when the scan does |
| TypeInfer.ReturnIndices | mscdec.py:604-607 | exactly the indexes of `0x6`/`0x8` returns |
| TypeInfer.ConfirmedLevels | mscdec.py:613-633 | the confidence map keeps the four types as keys |
| TypeInfer.FirstMax | mscdec.py:636 | `max(..., key=itemgetter(1))` returns a type with the highest level |
| TypeInfer.FirstMaxIsFirst | mscdec.py:636 | on ties it returns the first such type in dictionary order |
| TypeInfer.FuncTypes | mscdec.py:599-637 | one entry per script, each its own verdict |
| TypeInfer.FuncTypesRaisePersists | mscdec.py:599-637 | an exception ends the pass |
| TypeInfer.VoidIffNoReturn | mscdec.py:602-611 | a script is "void" exactly when it has no value-returning return |
| TypeInfer.FuncTypeLevels | mscdec.py:613-637 | a resolved type has the highest, nonzero level, strictly above every type listed before it |
| TypeInfer.FindReturns | mscdec.py:604-607 | the loop collects exactly the return indexes |
| TypeInfer.ConfirmLevels | mscdec.py:617-633 | the loop computes the specified confidence map |
| TypeInfer.ResolveType | mscdec.py:600-637 | one script's turn yields its specified verdict |
| TypeInfer.ConfirmedLevelsRaisePersists | mscdec.py:617-633 | an exception at one return persists |
| TypeInfer.FuncTypesStep | mscdec.py:599-637 | scanning one more script appends its verdict or raises its exception |
| TypeInfer.SettledEntry | mscdec.py:600-601 | each entry of a settled list is that script's own verdict |
| TypeInfer.Pass | mscdec.py:597-637 | a pass from all-None gives the specified verdicts; given them back it changes nothing |
| TypeInfer.WithDefaults | mscdec.py:638-640 | unresolved types become "int" |
| TypeInfer.GetFuncTypes | mscdec.py:593-641 | one type per script: its verdict, or "int" when undecided; raises exactly when a verdict does |
| Structure.IndexOf | mscdec.py:501 | `commands.index(x)` returns the first occurrence of the label, or raises `ValueError` |
| Structure.LastNonLabel | mscdec.py:460-463 | the index of the last item that is not a label, or none when there is none |
| Structure.LastCommand | mscdec.py:460-463 | `lastCommand(l)` returns that item |
| Structure.IfIsPushed | mscdec.py:517 | computes `len(ifCommands) > 0 and lastCommand(ifCommands).pushBit` |
| Structure.CastPosition | mscdec.py:488-498 | the backward walk stops at the latest item that pushes and has `numPushedBack` equal to the cast's operand index; no later pushing item matches; an empty parameter list raises `IndexError` |
| Structure.InsertCast | mscdec.py:487-498 | the cast case computes the specified insertion |
| Structure.FirstEnd | mscdec.py:478-480 | the first item at or after the cursor equal to `tryEnd`, or none |
| Structure.GroupStep | mscdec.py:473-554 | one iteration leaves the cursor inside the list |
| Structure.IfGroup | mscdec.py:499-551 | a branch's iteration leaves the cursor inside the list |
| Structure.NestedIfGroup | mscdec.py:512-527 | the same for a branch whose label follows another branch |
| Structure.NestedElseGroup | mscdec.py:514-519 | the same for the nested if/else case |
| Structure.ElseGroup | mscdec.py:528-546 | the same for a branch followed by an else marker |
| Structure.ElseBlock | mscdec.py:539-544 | an if/else block with an else part and the branch's negation flag |
| Structure.PullOutGroups | mscdec.py:469-555 | the cursor loop computes the recursive specification `Groups` |
| Structure.Regroup | mscdec.py:473-554 | one iteration computes `GroupStep` |
| Structure.GroupIf | mscdec.py:499-551 | the branch case computes `IfGroup` |
| Structure.GroupNestedIf | mscdec.py:512-527 | computes `NestedIfGroup` |
| Structure.GroupNestedElse | mscdec.py:514-519 | computes `NestedElseGroup` |
| Structure.GroupElse | mscdec.py:528-546 | computes `ElseGroup` |
| Structure.MakeElseBlock | mscdec.py:539-544 | computes `ElseBlock` |
| Structure.Breaks | mscdec.py:570-572 | exactly the jumps to the end label between the loop's label and its branch become `break`; nothing else changes |
| Structure.LoopOf | mscdec.py:562-574 | a backward branch becomes a while block with the branch's negation flag and the do-while test; its body is grouped after loops are pulled out of the break-marked range |
| Structure.PullOutLoops | mscdec.py:557-578 | the backward loop computes the recursive specification `Loops` |
| Structure.MakeLoop | mscdec.py:562-574 | computes `LoopOf` |
| StructureFacts.ReadySlice | mscdec.py:516 | slicing keeps a list free of call-group and cast markers inside blocks |
| StructureFacts.ReadySub | mscdec.py:573 | the same for a plain range |
| StructureFacts.CastInsertedSettled | mscdec.py:492 | inserting a cast keeps a settled list settled |
| StructureFacts.GroupsSettled | mscdec.py:469-555 | `pullOutGroups` leaves no call-group start, cast marker or branch at any depth |
| StructureFacts.GroupsFromSettled | mscdec.py:472-555 | the loop keeps its output settled |
| StructureFacts.GroupStepSettled | mscdec.py:473-554 | one iteration keeps it settled |
| StructureFacts.BlockSettled | mscdec.py:508-550 | a block of settled parts is settled |
| StructureFacts.AppendSettled | mscdec.py:485-486 | settled lists concatenate to a settled list |
| StructureFacts.IfGroupSettled | mscdec.py:499-551 | the branch case keeps the output settled |
| StructureFacts.PlainIfSettled | mscdec.py:547-551 | the plain if case does too |
| StructureFacts.NestedIfSettled | mscdec.py:512-527 | the nested-branch case does too |
| StructureFacts.NestedElseSettled | mscdec.py:514-519 | the nested if/else case does too |
| StructureFacts.NestedElseFoundSettled | mscdec.py:515-519 | the same once the else label is found |
| StructureFacts.NestedElseShape | mscdec.py:515-519 | the nested if/else case appends one block and moves the cursor to the else label |
| StructureFacts.SlicesReady | mscdec.py:516 | both slices of the nested case stay free of markers inside blocks |
| StructureFacts.NestedSameLabelSettled | mscdec.py:520-524 | the same-label case keeps the output settled |
| StructureFacts.NestedSameLabelShape | mscdec.py:520-527 | the same-label case appends the same block twice |
| StructureFacts.TwiceSettled | mscdec.py:523-527 | appending a settled block twice keeps the list settled |
| StructureFacts.ElseSettled | mscdec.py:528-546 | the else case keeps the output settled |
| StructureFacts.ElseGroupShape | mscdec.py:529-546 | the else case appends one block (its if part reaching the else label when `copyElse`) and moves the cursor to the else label |
| StructureFacts.ElseFoundSettled | mscdec.py:529-546 | the else case keeps the output settled once the label is found |
| StructureFacts.ElsePartsReady | mscdec.py:539-542 | the else case's slices stay free of markers inside blocks |
| StructureFacts.ElseBlockSettled | mscdec.py:539-544 | an if/else block built from such parts is settled |
| StructureFacts.BreaksReady | mscdec.py:570-572 | marking breaks keeps a list free of markers inside blocks |
| StructureFacts.LoopsReady | mscdec.py:557-578 | `pullOutLoops` keeps a list free of markers inside blocks |
| StructureFacts.LoopsFromReady | mscdec.py:560-577 | its loop does too |
| StructureFacts.LoopOfReady | mscdec.py:562-574 | a loop block built from such a list is settled |
| StructureFacts.Structured | mscdec.py:412 | `pullOutGroups(pullOutLoops(cmds))` leaves no call-group start, cast marker or branch at any depth |
| StructureFacts.GroupsFromPlain | mscdec.py:552-553 | items the loop does not treat are copied through |
| StructureFacts.GroupsOfPlain | mscdec.py:469-555 | a list without call groups, casts or branches is returned unchanged |
| StructureFacts.LoopsFromForward | mscdec.py:575-576 | without backward branches the loop copies items through |
| StructureFacts.LoopsOfForward | mscdec.py:557-578 | without a backward branch `pullOutLoops` changes nothing |
| StructureFacts.CastPlacement | mscdec.py:487-498 | a cast is inserted exactly after the latest pushing item at the marker's depth, or the list is unchanged when there is none |
| StructureFacts.CastMarkerDropped | mscdec.py:487-498 | the cast marker itself never stays in the list; at most one cast item is added |
| StructureFacts.DoubleAppend | mscdec.py:520-527 | a concrete list on which the same-label case appends the if block twice |
| StructureFacts.DoWhileForLabelOperands | mscdec.py:565-567 | once jump targets are labels, the `in range` test fails, so every loop is a do-while |
| StructureFacts.DoWhileIgnoresElse | mscdec.py:566 | the list `[4, 5, 36]` names decimal 36, not the else opcode `0x36`, so an else marker before the label also gives a do-while |
| Reconstruct.DispatchMatchesTables | mscdec.py:273-290 | the dispatch opcode lists are exactly the keys of the three operator tables, so the lookups never raise |
| Reconstruct.BinaryDispatch | mscdec.py:273 | the binary opcodes are the keys of `BINARY_OPERATIONS` |
| Reconstruct.AssignmentDispatch | mscdec.py:284 | the assignment opcodes are the keys of `ASSIGNMENT_OPERATIONS` |
| Reconstruct.UnaryDispatch | mscdec.py:276-279 | the two unary lists together are the keys of `UNARY_OPERATIONS` |
| Reconstruct.NonNone | mscdec.py:240 | `filter(lambda a: a != None, l)` keeps exactly the non-None items and no more |
| Reconstruct.NonNoneSnoc | mscdec.py:240 | filtering one more item adds it when it is not None |
| Reconstruct.Reverse | mscdec.py:293 | `args[::-1]` reverses |
| Reconstruct.IfToTernaryOp | mscdec.py:203-216 | raises `bad if/else ternary` exactly when a branch lacks exactly one non-None statement; otherwise a ternary with the same condition |
| Reconstruct.Ternaries | mscdec.py:237-239 | every if argument becomes a ternary and other arguments are kept |
| Reconstruct.ListIndex | mscdec.py:270-272 | `localVars[p]`/`globalVars[p]` is an element of the list; a non-integer index raises `TypeError` |
| Reconstruct.ArgsLoop | mscdec.py:224-236 | the cursor only moves back; the loop stops early only when the cursor runs out |
| Reconstruct.Args | mscdec.py:222-241 | `getArgs`: the cursor only moves back and the `other` list holds no None |
| Reconstruct.Decode | mscdec.py:245-406 | `decompileCmd` moves the cursor only backward |
| Reconstruct.DecodeCommand | mscdec.py:251-272 | the same for labels, garbage, jumps, returns, pushes, variables, casts and breaks (mscdec.py:337-339, 405-406) |
| Reconstruct.DecodeOperator | mscdec.py:273-290 | the same for the operator cases |
| Reconstruct.DecodeCall | mscdec.py:291-306 | the same for `printf`, `sys_%X`, `set_main` and `callFunc3` |
| Reconstruct.DecodeCallGroup | mscdec.py:307-336 | a call group restores the outer cursor |
| Reconstruct.DecodeIf | mscdec.py:340-377 | an if block moves the outer cursor only backward |
| Reconstruct.DecodeWhile | mscdec.py:378-404 | a while block restores the outer cursor |
| Reconstruct.LocalTypes | mscdec.py:437-439 | one local type per `varc` slot (none when negative) |
| Reconstruct.VarDecls | mscdec.py:445-446 | `var{i+argc}` declarations typed by `localVarTypes[i + argc]`; a missing type raises `IndexError` |
| Reconstruct.VarDeclsRaisePersists | mscdec.py:445-446 | a missing type makes every longer declaration list fail |
| Reconstruct.ArgDeclsSnoc | mscdec.py:442-443 | one more parameter appends `arg{n}` with its type |
| Reconstruct.LocalNamesSnoc | mscdec.py:447 | one more local appends its name |
| Reconstruct.LocalNamesArg | mscdec.py:444 | one more parameter appends `arg{n}` |
| ReconstructFacts.DecodePushedConstant | mscdec.py:264-267 | a constant push decodes to its constant and consumes nothing |
| ReconstructFacts.TernariesOfPlain | mscdec.py:237-239 | arguments without if blocks are kept as they are |
| ReconstructFacts.ArgsLoopOfTwoPushes | mscdec.py:226-236 | two pushed constants are collected nearest first |
| ReconstructFacts.ArgsOfTwoPushes | mscdec.py:222-241 | `getArgs(2)` over two pushed constants returns them nearest first, with nothing else |
| ReconstructFacts.BinaryCommandIsOperator | mscdec.py:273 | a binary opcode reaches the operator case |
| ReconstructFacts.BinaryOperandOrder | mscdec.py:273-275 | for any operands decoded from the two pushes before a binary opcode (none of them an if block), the left operand is the earlier push and the right one the later push, and the cursor ends before both |
| ReconstructFacts.BinaryOfConstants | mscdec.py:273-275 | the same for two pushed constants |
| ReconstructFacts.NonNoneSingle | mscdec.py:205-209 | a single non-None statement survives the None removal |
| ReconstructFacts.ElseIfBecomesNestedTernary | mscdec.py:212-216 | an if/else-if chain becomes a nested ternary in the false position |
| ReconstructFacts.ArgsOfTargetPush | mscdec.py:317 | a call group's target push is taken as its only argument |
| ReconstructFacts.CallTargetNaming | mscdec.py:307-336 | a string target is called by name; a resolved script name is called directly when it is a known script and through `*` otherwise |
| ReconstructFacts.LoopConditionSource | mscdec.py:378-404 | with the cursor set to the last of the loop's commands, `getArgs(1)` steps back first, so the condition is decoded from the item before the last, negated unless the branch is `ifNot`; the body walk starts again at that same item, and the last item (the value the branch tests) is never decoded |
| ReconstructFacts.BodyHasNoNone | mscdec.py:348-356 | a decompiled block contains no None statement |
| ReconstructFacts.DeclarationsFirst | mscdec.py:428-454 | a script's parameters are `arg0 .. arg{argc-1}` and its body starts with `var{argc} .. var{varc-1}` (none when `varc < argc`), each typed by its slot's majority vote |
| ReconstructFacts.ErrorBecomesComment | mscdec.py:430-457 | an exception in the `try` block leaves the definition with the parameters declared so far and a single comment holding the error text |
| ReconstructFacts.BodyBecomesDefinition | mscdec.py:430-457 | without an exception the definition holds the parameters and the statements of the body |
| ReconstructFacts.MissingBeginComment | mscdec.py:433-435 | a script that does not start with a begin has no parameters and only the comment `Script <name> doesn't start with a begin` |
| Structure.CastInserted | mscdec.py:487-498 | the cast case: the marker is dropped and a cast goes right after the item found; StructureFacts.CastPlacement and StructureFacts.CastMarkerDropped state where |
| Structure.CopyElse | mscdec.py:534-537 | `copyElse`: some branch inside the if part jumps to the if's own label; StructureFacts.ElseGroupShape uses it |
| Structure.Groups | mscdec.py:469-555 | `pullOutGroups`; StructureFacts.GroupsSettled proves no call-group start, cast marker or branch is left at any depth, and StructureFacts.GroupsOfPlain that a plain list comes back unchanged |
| Structure.GroupsFrom | mscdec.py:472-555 | its cursor loop; StructureFacts.GroupsFromSettled and StructureFacts.GroupsFromPlain |
| Structure.DoWhileTest | mscdec.py:565-567 | `isDoWhile`; StructureFacts.DoWhileForLabelOperands and StructureFacts.DoWhileIgnoresElse state what it decides |
| Structure.Loops | mscdec.py:557-578 | `pullOutLoops`; StructureFacts.LoopsReady and StructureFacts.LoopsOfForward |
| Structure.LoopsFrom | mscdec.py:560-577 | its backward loop; StructureFacts.LoopsFromReady and StructureFacts.LoopsFromForward |
| Reconstruct.GroupLoop | mscdec.py:319-325 | the call group's `while index > 0` loop, which puts every result in front |
| Reconstruct.Body | mscdec.py:348-356 | a block's statements from the cursor backward; ReconstructFacts.BodyHasNoNone proves it holds no None |
| Reconstruct.Block | mscdec.py:345-369 | a whole block |
| Reconstruct.Walk | mscdec.py:409-424 | `decompileFunc`: loops, then groups, then the block; StructureFacts.Structured states what structuring leaves |
| Reconstruct.ScriptStatements | mscdec.py:432-450 | the `try` block: parameters declared and the body or its exception; ReconstructFacts.DeclarationsFirst |
| Reconstruct.Declared | mscdec.py:439-454 | the declarations, then the body |
| Reconstruct.DecompileScript | mscdec.py:428-457 | `decompile`; ReconstructFacts.ErrorBecomesComment, ReconstructFacts.BodyBecomesDefinition and ReconstructFacts.MissingBeginComment |
| TypeInfer.References | mscdec.py:103-140 | the references of the first `n` items; TypeInfer.ReferencesInScope and TypeInfer.ReferencesStep |
| TypeInfer.SlotType | mscdec.py:144-148 | a slot's type by majority; TypeInfer.SlotTypeOfConcatenation and TypeInfer.MajorityIsSlotType |
| TypeInfer.ReturnEvidence | mscdec.py:618-633 | what the instruction before one return says about the type |
| TypeInfer.FuncType | mscdec.py:600-637 | one script's verdict; TypeInfer.VoidIffNoReturn and TypeInfer.FuncTypeLevels |
| Decompiler.Decompiler.constructor | mscdec.py:246 | the walk's globals start empty |
| Decompiler.Decompiler.GetArgs | mscdec.py:222-241 | `getArgs` on the fields computes `Args` and leaves the cursor where `Args` says |
| Decompiler.Decompiler.CollectArgs | mscdec.py:224-236 | its loop computes `ArgsLoop` |
| Decompiler.Decompiler.RunBody | mscdec.py:348-356 | the `while index >= 0` loop of a block computes `Body` |
| Decompiler.Decompiler.RunGroup | mscdec.py:319-325 | the call group's loop computes `GroupLoop` |
| Decompiler.Decompiler.DecompileCmd | mscdec.py:245-406 | `decompileCmd` on the fields computes `Decode` |
| Decompiler.Decompiler.DecompileCommand | mscdec.py:251-272 | computes `DecodeCommand` |
| Decompiler.Decompiler.DecompileOperator | mscdec.py:273-290 | computes `DecodeOperator` |
| Decompiler.Decompiler.DecompileCall | mscdec.py:291-306 | computes `DecodeCall` |
| Decompiler.Decompiler.DecompileCallGroup | mscdec.py:307-336 | computes `DecodeCallGroup`, saving and restoring `currentFunc` and `index` |
| Decompiler.Decompiler.DecompileIf | mscdec.py:340-377 | computes `DecodeIf`, saving and restoring the cursor |
| Decompiler.Decompiler.DecompileBlock | mscdec.py:345-369 | a nested block computes `Block` and restores the cursor |
| Decompiler.Decompiler.DecompileWhile | mscdec.py:378-404 | computes `DecodeWhile`, saving and restoring the cursor |
| Decompiler.Decompiler.DecompileFunc | mscdec.py:409-424 | `decompileFunc` computes `Walk` |
| Decompiler.Decompiler.DecompileBody | mscdec.py:432-450 | the begin check, the local types, the declarations and the walk compute `ScriptStatements` |
| Decompiler.Decompiler.DeclareAndWalk | mscdec.py:439-454 | computes `Declared` |
| Decompiler.Decompiler.DeclareParams | mscdec.py:442-444 | the parameter loop declares `arg0..` and sets `localVars`, and fails exactly when a type is missing |
| Decompiler.Decompiler.DeclareLocals | mscdec.py:445-447 | the locals loop computes `VarDecls` and extends `localVars` |
| Decompiler.Decompiler.Decompile | mscdec.py:428-457 | `decompile` computes `DecompileScript` |
| Ast.ConstantText | ast2str.py:50-58 | a constant's text: strings in double quotes, integers in `hex` (AstFacts.IntConstantRoundTrip reads them back), booleans in lower case |
| Ast.Render | ast2str.py:1-200 | every node's `__str__`; AstFacts proves the bracketing rule, the `if`/`else` layout, the statement and argument lists, and the examples |
| Ast.Operand | ast2str.py:17-21 | `_parenthesisTypes`: AstFacts.OperandBracketedIffCompound proves an operand bracketed exactly when it is a binary or ternary operator |
| Ast.RenderStatements | ast2str.py:27-29 | `Statements.__str__`; AstFacts.StatementsOnePerLine proves one statement and `;` per line |
| Ast.RenderDeclList | ast2str.py:76-78 | `DeclList.__str__`; AstFacts.DeclListShort and AstFacts.DeclListSeparated prove the items separated by `, ` |
| AstFacts.OperandBracketedIffCompound | ast2str.py:17-21 | an operand is bracketed exactly when it is a binary or ternary operator (`_parenthesisTypes`, ast2str.py:201) |
| AstFacts.IntConstantRoundTrip | ast2str.py:50-54 | an integer constant prints in `hex` and reads back to itself; zero prints as `0x0` |
| AstFacts.LastNewline | ast2str.py:29 | the position of the last newline, with none after it, or none at all |
| AstFacts.LastNewlineOfJoin | ast2str.py:29 | joining with a newline puts the last newline right after the first part |
| AstFacts.LinesOfJoin | ast2str.py:29 | splitting a newline-joined text gives back its parts |
| AstFacts.StatementsOnePerLine | ast2str.py:28-29 | `Statements` prints one statement per line, each followed by `;` |
| AstFacts.ElseIfChains | ast2str.py:140-150 | an else holding a single `if` prints as the `if` without its else, then ` else `, then the inner `if` |
| AstFacts.ElseBlock | ast2str.py:140-150 | any other else prints as the `if` without its else, then ` else {` and a new line, and the text ends with a new line and `}` |
| AstFacts.NoElseEndsWithTrueBlock | ast2str.py:140-145 | an `if` without else starts with `if(` followed directly by the condition's text, and ends with a new line and `}` |
| AstFacts.TrueBlockIndependent | ast2str.py:140-150 | the text of an `if` without its else is a prefix of its text with any else |
| AstFacts.DeclListShort | ast2str.py:77-78 | an empty `DeclList` prints as nothing, a one-item list as that item |
| AstFacts.DeclListSeparated | ast2str.py:77-78 | one more item adds `, ` and its text at the end |
| AstFacts.CallArguments | ast2str.py:107-108 | a call prints the callee, then its arguments in brackets with `, ` before the last |
| AstFacts.CallOfTwo | ast2str.py:107-108 | a call of two arguments prints the callee, then both arguments in brackets with `, ` between them |

## Left out

- Reading the container (`msc`), file I/O, the command line, `printC`, `main` and every `print`: there is no I/O in the model.
- `COMMAND_STACKPOPS` belongs to the container reader, which is not part of this model. It is the parameter `pops: Arity`.
- xml_info.py is not part of this model.
- Disasm.GuessIsFloat: the floating-point facts about the packed value (`abs(f) < 0.000001 or isnan(f)`, `abs(f) >= 10000000`) are boolean parameters, because Dafny has no IEEE single-precision arithmetic.
- `pickTypes` (disasmlib.py:183-190), which replaces integers by floats, is left out for the same reason. The model keeps integer constants as integers.
- The container's string table, which the printf step (disasmlib.py:86-88) indexes, is a parameter (`strings`) rather than read from the file.
- The `Label.__str__` fallback `Label <id>` applies to labels without names, and object identity is not modelled. Every label the label pass makes has a `loc_<hex>` name, which the model uses as its identity.
- `if varNum == 20: print()` (mscdec.py:116-117) is a debugging print with no effect on the result.
- The second `elif script[i].parameters[1] == 0x29` (disasmlib.py:96-97) can never run. The model has only the first.
- `USES_INT` lists decimal `28` (0x1c) where `0x28` looks intended. The table is kept as written.
- Disasm.Analyzer.EmuScript: the walk takes `fuel`. A walk the source would repeat forever (a jump back to an earlier position) ends as `OutOfFuel`, and `disasm` then raises `Diverged`. DisasmFacts.AnalysedMore shows that a larger bound never changes a result that did not diverge. The depth and `clearedPaths` bookkeeping is kept, but nothing reads it, as in the source.
- Structure.PullOutGroups: when the cursor is sent back, the source can loop forever. The model bounds the structuring recursion by `fuel` and reports `Diverged` when it runs out.
- Messages of Python's built-in exceptions are abstract (`ErrorText`). The `Comment` that `decompile` emits on failure carries that text.
- Reconstruct.IfToTernaryOp: the source edits the if node in place while removing `None`. The model builds the ternary from the filtered lists and does not model the side effect on the node.
- Bool and Float parameters where the source expects an integer slot, count or code never come from the reader, so the model does not follow Python's mixing of `bool`, `int` and `float` everywhere. Module by module:
  - Disasm: a string-table index, a global slot or a callee slot number that is not an `Int` raises `TypeError`, where Python would index with a `bool` as 0 or 1. The tests against 0, 1, 3 and 0x29 (`Bytecode.IsInt`, disasmlib.py:46, 91, 100, 104) are exact equalities: `Bool(false)`, `Bool(true)` and a float 0.0 or 1.0 do not match, where Python's `==` would. A non-integer jump target raises `TypeError`.
  - TypeInfer: the scope tests `parameters[0] == 1` and `parameters[0] == 0` (mscdec.py:106, 161, 625) are exact in the same way, and a global slot number that is not an `Int` raises `TypeError`, where Python would go on with it as a dictionary key.
  - Reconstruct: indexing follows Python. `IntOf` reads `Bool(true)` as 1 and `Bool(false)` as 0, so `ListIndex`, `Variable`, `ArgCount` and the sys-call id accept Bools, and the scope test `IsZero` (mscdec.py:269, 280, 286) holds for `Int(0)` and `Bool(false)` but not for a float 0.0, where Python's `==` would hold. A Float index raises `TypeError`, as in Python. A Float argument count also raises `TypeError`, where `len(args) < argc` (mscdec.py:226) would simply compare.
- The `print(scriptName)` before the re-raise in `updateScriptReference` (disasmlib.py:51-53) is output only. The exception itself is modelled.
- Reconstruct.Decode and its cases state only that the cursor moves backward. The full result is defined by the functions themselves, and the lemmas in `ReconstructFacts` state what it is for the cases the source's comments describe.
