# Code-Virtualizer: the interpreter and the bytecode it runs

Code-Virtualizer gates an authentication decision behind a small, self-modifying
stack machine. `VM.cpp`/`VM.h` hold the interpreter. It dispatches each fetched
word through the key `(op * 17 + 3) % 50` to one of fifteen handlers. Three of
those handlers are anti-tampering checks:

- `timing_check` sets a terminal integrity flag when the elapsed time, truncated to whole seconds, exceeds 2 (at least 3 seconds);
- `checksum_check` sets it when the XOR fold of a program range differs from a stored value;
- `checksum_push` pushes the XOR fold of a range onto the stack.

`main.cpp` builds the program it loads. `calculate_checksum` computes the expected
checksum on the host. An `add_instruction` helper follows each instruction with a
`mutate` that overwrites the instruction once it has run. The builder then
back-patches the jump target, the two checksum ranges and the expected checksum.
The built program compares the user's number with `rotl(C1 ^ C2, 5)`, where C1
and C2 fold the program's own critical section. It then calls the success or the
failure callback.

The project has these modules:

- `Words`: 32-bit words as two's-complement bit strings. It covers `^`, `std::accumulate` with `bit_xor` (`XorFold`), `rotl`, C++'s truncating `%`, and the `int` to `size_t` conversion.
- `Dispatch`: the opcode enum, the dispatch key with its possible overflow, the handler table, and what a fetched word decodes to.
- `Machine`: the interpreter state as a value, one function per handler, `Cycle` for one pass of `run`'s loop, and `Run` for the loop.
- `MachineProperties`: what the handlers and the loop promise.
- `Interpreter`: `class VM`, with the source's fields updated in place by the source's methods. Each method is proved to move the object from state `s` to the state the matching `Machine` function gives for `s`.
- `Builder`: `calculate_checksum`, `add_instruction`, the builder as imperative methods (emit, then patch), and the program it produces written out as `Layout`.
- `Authentication`: the run of the built program, pass by pass. It ends with `AuthenticationOutcome` and the method `Authenticate`. Whatever the clock says, the run never faults and calls exactly one callback. It calls the success callback exactly when the input equals `AuthKey()`.

Where the source has undefined behaviour, the model stops the run with an
explicit `Fault`: `is_running` becomes false and the stack, pointer and program
stay as they were when the handler started. The cases are:

- an operand read past the end;
- `stack.back()` on an empty stack;
- a checksum range outside the program;
- a shift count outside 1..31;
- signed overflow in `a + b`, `a - b` or `opcode * 17 + 3`.

Two behaviours of `run()` that a reader may not expect, and that the model
follows:

- `run()` does not reset `instruction_pointer`. It is set to 0 only by the constructor (`RunResumesAtPointer`).
- When the loop returns on a set integrity flag, it leaves `is_running` true (`RunAfterIntegrityFailure`).

## Model

| member | source | states |
|---|---|---|
| Words.XorAssociative | VM.cpp:113-117 | `^` on 32-bit words is associative |
| Words.XorZero | VM.cpp:137 | 0 is the identity of `^`, the start value of both folds |
| Words.XorCancel | VM.cpp:113-117 | `(a ^ c) ^ c == a`, and `a ^ c == a` exactly when `c == 0` |
| Words.XorFoldSingle | VM.cpp:137 | a one-word range folds to that word |
| Words.XorFoldAppend | VM.cpp:137 | folding a concatenation is the `^` of the two folds |
| Words.XorFoldSplit | VM.cpp:147-149 | a fold splits at any index into the `^` of the folds of the two parts |
| Words.RotateLeftBits | VM.cpp:156-158 | `rotl` by k moves the top k bits of the unsigned value to the bottom, as `(u << k) \| (u >> (32 - k))` does |
| Words.RotateLeftRoundTrip | VM.cpp:153-159 | rotating by k and then by 32 - k gives back the value |
| Words.CRem | VM.cpp:57 | C++ `%` by a positive divisor: equals Dafny's `%` for non-negative operands, is never positive for non-positive ones, lies strictly between -b and b, and differs from `a` by a multiple of `b` (so it is the remainder truncated toward zero) |
| Words.SizeTBelow | VM.cpp:51 | an `int` compared with a vector size through `size_t` is below the size exactly when it is a non-negative index |
| Dispatch.CodesConsecutive | VM.h:10-16 | the opcodes are the consecutive values 0..14 in declaration order, and `FromCode` inverts `Code` |
| Dispatch.DispatchKey | VM.cpp:57 | the key exists (no signed overflow) exactly for words in ±126322567; it lies in (-50, 50) and is non-positive for negative words |
| Dispatch.HandlerKeyValues | VM.cpp:18-32 | the fifteen keys `initialize_handlers` computes, one per opcode |
| Dispatch.HandlerTableKeys | VM.cpp:18-32 | each opcode sits under its own key, the table holds no other key, and each stored opcode's key is the key it is stored under (so the key is injective on opcodes) |
| Dispatch.DecodeCode | VM.cpp:56-60 | every defined opcode word reaches its own handler |
| Dispatch.DecodeNegative | VM.cpp:57-64 | a negative word never reaches a handler |
| Dispatch.DecodeAlias | VM.cpp:57-60 | words outside 0..14 can alias a handler: 50 runs `push` and 64 runs `rotl` |
| Dispatch.SameKeySameResidue | VM.cpp:57 | two residues modulo 50 with the same key are equal |
| Dispatch.DecodePeriodic | VM.cpp:57-64 | a non-negative word reaches a handler exactly when it is below 15 modulo 50, and then the handler of that residue |
| Interpreter.InitializeHandlers | VM.cpp:13-33 | the fifteen assignments build exactly the handler table |
| Interpreter.VM.constructor | VM.h:29-36 | a new VM has an empty program and stack, pointer 0, both flags false and no callbacks |
| Interpreter.VM.LoadBytecode | VM.cpp:35-37 | the program is replaced and nothing else changes, the pointer included |
| Interpreter.VM.RegisterExternalCall | VM.cpp:166-168 | the id now maps to the new callback and the last registration wins; nothing else changes |
| Interpreter.VM.GetResult | VM.cpp:170-173 | the top of the stack, or 0 when the stack is empty |
| Interpreter.VM.HandlePush | VM.cpp:69-72 | the object's new state is `ExecPush` of its old state |
| Interpreter.VM.HandlePop | VM.cpp:74-76 | the new state is `ExecPop` of the old |
| Interpreter.VM.HandleAdd | VM.cpp:78-83 | the new state is `ExecAdd` of the old |
| Interpreter.VM.HandleRet | VM.cpp:85 | the new state is `ExecRet` of the old |
| Interpreter.VM.HandleCallExternal | VM.cpp:87-90 | the new state is `ExecCallExternal` of the old |
| Interpreter.VM.HandleCmp | VM.cpp:92-96 | the new state is `ExecCmp` of the old |
| Interpreter.VM.HandleJumpIfEqual | VM.cpp:98-103 | the new state is `ExecJumpIfEqual` of the old |
| Interpreter.VM.HandleSub | VM.cpp:105-109 | the new state is `ExecSub` of the old |
| Interpreter.VM.HandlePushJunk | VM.cpp:111 | the new state is `ExecPushJunk` of the old |
| Interpreter.VM.HandleXor | VM.cpp:113-117 | the new state is `ExecXor` of the old |
| Interpreter.VM.HandleMutate | VM.cpp:119-123 | the new state is `ExecMutate` of the old |
| Interpreter.VM.HandleTimingCheck | VM.cpp:125-131 | the new state is `ExecTimingCheck` of the old, for the clock's answer |
| Interpreter.VM.HandleChecksumCheck | VM.cpp:133-142 | the new state is `ExecChecksumCheck` of the old |
| Interpreter.VM.HandleChecksumPush | VM.cpp:144-151 | the new state is `ExecChecksumPush` of the old |
| Interpreter.VM.HandleRotl | VM.cpp:153-159 | the new state is `ExecRotl` of the old |
| Interpreter.VM.HandleUnknown | VM.cpp:161-164 | the run halts and nothing else changes |
| Interpreter.VM.Step | VM.cpp:51-64 | one pass of the loop: the new state is `Cycle` of the old, and the handler table is unchanged |
| Interpreter.VM.Run | VM.cpp:41-66 | `run()` with at most `fuel` passes: the new state is `RunVm` of the old |
| MachineProperties.CycleDispatches | VM.cpp:56-60 | with the pointer inside the program, a pass fetches the word, moves past it and runs the handler the word decodes to |
| MachineProperties.ExecuteIntegrityFlag | VM.cpp:79 | no handler clears the integrity flag, and only `add`, `timing_check` and `checksum_check` set it |
| MachineProperties.ExecuteTrace | VM.cpp:87-90 | a handler appends at most one callback to the trace, and only `call_external` with a registered id does |
| MachineProperties.ExecuteStops | VM.cpp:85 | a handler keeps running with no new fault, or halts with a fault, or is `ret`, which only halts |
| MachineProperties.CycleHalts | VM.cpp:51-64 | a pass ends the run without a fault exactly when the pointer is outside the program (negative included), the word is `ret`, or its key has no handler; the flag, stack and program are untouched then |
| MachineProperties.CycleIntegrityFlag | VM.cpp:129 | no pass clears the flag, and a pass that sets it ran `add`, `timing_check` or `checksum_check` |
| MachineProperties.NoStepAfterIntegrityFailure | VM.cpp:46-49 | a pass that sets the flag is the last pass of the run |
| MachineProperties.RunAfterIntegrityFailure | VM.cpp:41-49 | `run()` with the flag already set returns at once and leaves `is_running` true |
| MachineProperties.RunResumesAtPointer | VM.cpp:41-54 | `run()` does not reset the pointer: a VM whose pointer is outside the program halts at once with nothing else changed |
| MachineProperties.CycleTraceGrows | VM.cpp:87-90 | a pass appends at most one callback, and only through `call_external` with a registered id |
| MachineProperties.RunTraceGrows | VM.cpp:45-65 | a run only appends to the callbacks already run |
| MachineProperties.ExecuteKeepsRegistry | VM.cpp:69-164 | no handler changes the callback registry |
| MachineProperties.CycleKeepsRegistry | VM.cpp:51-64 | a pass keeps the callback registry |
| MachineProperties.RunKeepsRegistry | VM.cpp:41-66 | a run keeps the callback registry; only `register_external_call` changes it |
| MachineProperties.CallExternalEffect | VM.cpp:87-90 | `call_external` moves past its operand and runs the registered callback; every other field, the registry included, is unchanged, and an unknown id only moves the pointer |
| MachineProperties.PushEffect | VM.cpp:69-72 | `push` appends its immediate, which `get_result` then returns |
| MachineProperties.PopEffect | VM.cpp:74-76 | `pop` removes the top value and changes nothing else, and does nothing on an empty stack |
| MachineProperties.PushJunkEffect | VM.cpp:111 | `push_junk` moves past one word and changes nothing else; the result does not depend on the word it skips |
| MachineProperties.TimingCheckEffect | VM.cpp:125-131 | `timing_check` leaves the flag set exactly when it was set or the clock says the time is up, and changes nothing else |
| MachineProperties.BinaryEffect | VM.cpp:78-117 | `add`, `sub`, `xor` and `cmp` pop b, then a, and push `a+b`, `a-b`, `a^b` or `a==b ? 1 : 0`; the stack shrinks by one; `add` and `sub` fault exactly on signed overflow |
| MachineProperties.BinaryUnderflow | VM.cpp:80-81 | with fewer than two values these four fault and leave the stack alone |
| MachineProperties.AddChecksProgramShape | VM.cpp:79 | after `add` the flag is set exactly when it was set before or the first program word is neither `push` nor `push_junk` |
| MachineProperties.JumpIfEqualEffect | VM.cpp:98-103 | `jump_if_equal` pops the condition and consumes its operand; it jumps exactly when the condition is 1 and the flag is clear |
| MachineProperties.JumpIfEqualUnderflow | VM.cpp:99 | on an empty stack it faults before reading its operand |
| MachineProperties.MutateEffect | VM.cpp:119-123 | `mutate` writes only `bytecode[addr]`, only when `0 <= addr < size` (a negative address is ignored), keeps the stack and moves by 2 |
| MachineProperties.ChecksumOfEmptyRange | VM.cpp:147-149 | an empty range folds to 0 |
| MachineProperties.ChecksumOfAdjacentRanges | VM.cpp:137 | folding two adjacent ranges and combining with `^` folds their union |
| MachineProperties.ChecksumPushEffect | VM.cpp:144-151 | `checksum_push` pushes the fold of its range (0 for an empty one); the rest of the state, trace and registry included, is unchanged except the pointer |
| MachineProperties.ChecksumCheckEffect | VM.cpp:133-142 | `checksum_check` sets the flag exactly when the fold differs from `expected`, and otherwise only moves by 3 |
| MachineProperties.ChecksumRangeFault | VM.cpp:133-137 | `checksum_check` faults on a range outside the program |
| MachineProperties.ChecksumPushRangeFault | VM.cpp:144-149 | `checksum_push`, which reads only two operands, faults on a range outside the program, also when its operands are the program's last words |
| MachineProperties.RotlEffect | VM.cpp:153-159 | `rotl` replaces the top value with its rotation; rotating back by 32 - bits restores it |
| MachineProperties.RotlShiftFault | VM.cpp:157 | a shift count outside 1..31 faults |
| MachineProperties.AddProgram | VM.cpp:69-85 | `push a; push b; add; ret` halts without fault or flag and `get_result` gives `a + b` |
| MachineProperties.CmpProgram | VM.cpp:69-96 | `push a; push b; cmp; ret` halts at 6 with exactly 1 on the stack when `a == b` and 0 otherwise, no fault, flag or callback |
| Builder.FailureIdDiffers | main.cpp:21 | the failure id differs from the success id, and the mask is its own inverse |
| Builder.AddInstruction | main.cpp:33-38 | `add_instruction` keeps the program so far, appends the instruction, then the trailer `mutate <address of the instruction>; push_junk` |
| Builder.TrailerNeutralises | main.cpp:33-38 | running that trailer overwrites the instruction's opcode word with `push_junk` |
| Builder.EmitPrologue | main.cpp:49-54 | `push U` and `checksum_check 0 0 0`, each with its trailer; the check sits at 5 |
| Builder.EmitCriticalSection | main.cpp:56-83 | the critical section with zero operands; C1 at 12, C2 at 18, the jump at 37 |
| Builder.EmitFailureBranch | main.cpp:85-93 | the failure branch block at 42 |
| Builder.EmitSuccessBranch | main.cpp:95-102 | the success branch block at 58 |
| Builder.PatchCriticalSection | main.cpp:104-119 | the jump goes to the success branch; C1 covers the section and C2 its middle half (start 19, length 15); no other block changes |
| Builder.CriticalSectionPatched | main.cpp:105-119 | the five patched operands turn the emitted section into the final one |
| Builder.PatchChecksumCheck | main.cpp:121-127 | the check covers the section and expects the host fold of the section as it stands after the other patches |
| Builder.Build | main.cpp:32-127 | the built program has 74 words and is the layout whose expected checksum is the fold of its own critical section |
| Builder.LayoutBlocks | main.cpp:32-102 | the four blocks sit at 0, 12, 42 and 58, and the 74th and last word is `ret` |
| Builder.HostChecksumMatches | main.cpp:11-13 | `calculate_checksum` over the section equals what `checksum_check` computes over the range its operands name |
| Builder.ExpectedIsFixed | main.cpp:122-127 | the expected checksum depends neither on the input nor on the ids |
| Builder.ChecksumWindows | main.cpp:110-119 | C1's range is the section, and C2's range is the window of half its length a quarter of the way in, inside the section; both ranges lie inside the program |
| Builder.LayoutKey | main.cpp:40-47 | the key the program derives from its own section is `AuthKey()`, the same for every input and id |
| Authentication.RegisteredCallbacks | main.cpp:23-24 | each id reaches its own callback after the two registrations |
| Authentication.RunPrologue | main.cpp:49-54 | passes 0 to 3: `push U` and the integrity check of the untouched section, which passes |
| Authentication.RunChecksums | main.cpp:59-67 | passes 4 to 7: the folds of the section and of its window, as loaded, go on the stack |
| Authentication.RunDerive | main.cpp:69-73 | passes 8 to 10: `xor` and `rotl 5` turn the two folds into the key |
| Authentication.RunCompare | main.cpp:75-80 | passes 11 to 14: the run branches to 58 exactly when the input equals the key, and to 39 otherwise |
| Authentication.RunSuccessBranch | main.cpp:95-102 | from the success branch the run calls the success callback once and stops (halted, or returned on a set flag) with no fault |
| Authentication.RunFailureBranch | main.cpp:85-93 | from the fall-through the run calls the failure callback once and stops (halted, or returned on a set flag) with no fault |
| Authentication.RunTail | main.cpp:92-93 | from a branch's `timing_check` the run stops (halted, or returned on a set flag) with no fault and no further callback, whatever the clock says |
| Authentication.RunOutcome | main.cpp:40-47 | a program with these blocks runs without fault and calls exactly one callback, chosen by comparing the input with `rotl(C1 ^ C2, 5)`, and stops within the given passes |
| Authentication.SectionKey | main.cpp:40-47 | `rotl(C1 ^ C2, 5)` computed from the section is `DerivedKey` of the section |
| Authentication.AuthenticationOutcome | main.cpp:130-132 | the loaded program, given 23 passes, never faults and calls the success callback exactly when the input is `AuthKey()`, and the failure callback otherwise, once; the run has stopped within those 23 passes |
| Authentication.Authenticate | main.cpp:16-132 | `main` on the class: construct, register, build, load, run; then the trace is the success callback exactly when the input is `AuthKey()` and the failure callback otherwise, with no fault, and the VM has stopped |

## Left out

- The clock: `start_time` and `steady_clock` are not modelled. `timing_check` asks an oracle `clock: nat -> bool` whether the elapsed time truncated to whole seconds exceeds 2 (that is, at least 3 seconds have passed), one answer per pass of the run.
- Message boxes and `std::cerr`/`std::cout` output are not modelled. A callback is recorded by name in a `trace` when `call_external` runs it. The `std::function` and `bind_handler` plumbing is replaced by a table from key to `Opcode`.
- The random draw of `authSuccessId` and the console read of the key are not modelled. Both are parameters.
- Interpreter.VM.Run: the `while (is_running)` loop runs for at most `fuel` passes, so a run longer than that is cut off. The built program stops within 23 passes (`AuthenticationOutcome`).
- Undefined behaviour of the source is replaced by an explicit fault that stops the run. The source gives no meaning to those cases.
- Programs of 2^31 - 1 words or more are not modelled (`Program`), because an `int` pointer could not walk them.
- AuthKey: its numeric value is not evaluated. It is defined from the fixed critical section and proved independent of the input and of the ids.
- The builder's single block of statements is split into emit and patch methods along its comments. `add_instruction` is a function that returns the extended vector.
- A second concurrent `run()` on one VM is not modelled. The source is single-threaded.
