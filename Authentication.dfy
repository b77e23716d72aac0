/** What `main` does once the IDs are drawn and the key is read: register the
    two callbacks, build and load the program, and run it. The main result,
    `AuthenticationOutcome`, follows the interpreter through the program pass
    by pass: whatever the timing oracle answers, the run calls the success
    callback exactly when the input equals `AuthKey()`, and the failure
    callback otherwise. */
module Authentication {
  import opened Words
  import opened Dispatch
  import opened Machine
  import opened MachineProperties
  import opened Builder
  import opened Interpreter

  /** The two callbacks `main` registers (they show a message box). */
  const SuccessCallback: Callback := Callback("Auth Successful!")
  const FailureCallback: Callback := Callback("Auth Failed.")

  /** `external_calls` after the two registrations, success first. */
  function Registered(successId: Int32): map<Int32, Callback>
  {
    map[successId := SuccessCallback][FailureId(successId) := FailureCallback]
  }

  /** Each ID reaches its own callback. */
  lemma RegisteredCallbacks(successId: Int32)
    ensures successId in Registered(successId) && Registered(successId)[successId] == SuccessCallback
    ensures FailureId(successId) in Registered(successId) && Registered(successId)[FailureId(successId)] == FailureCallback
  {
    FailureIdDiffers(successId);
  }

  /** The VM as `run()` finds it in `main`: fresh, with the callbacks
      registered and the built program loaded. */
  function Loaded(userInput: Int32, successId: Int32, expected: Int32): State
  {
    Initial().(bytecode := Layout(userInput, successId, FailureId(successId), expected),
               externalCalls := Registered(successId))
  }

  // ----- runs as chains of passes -----

  // `Loop`, `Pass` and `Fold` are not new concepts: `RunIsLoop`, `IsCycle`
  // and `IsFold` prove them equal to `Run`, `Cycle` and `XorFold`. They exist
  // only so that the long run proofs below can name the pass and the fold
  // as values whose definitions the verifier opens only where `Cycle` or
  // `XorFold` is written out; every result of this module is stated again
  // in terms of `RunVm`.

  /** The loop of `run` with the pass function as a parameter, so that runs
      can be reasoned about without unfolding a pass. */
  function Loop(step: (State, bool) -> State, s: State, fuel: nat, clock: nat -> bool, t: nat): State
    decreases fuel
  {
    if fuel == 0 || !s.isRunning then s
    else if s.integrityFailed then s
    else Loop(step, step(s, clock(t)), fuel - 1, clock, t + 1)
  }

  /** The pass of `run` as a function value. */
  function Pass(): (State, bool) -> State
  {
    (s, e) => Cycle(s, e)
  }

  /** The fold of the checksum as a function value. */
  function Fold(): seq<Int32> -> Int32
  {
    s => XorFold(s)
  }

  /** `Run` is that loop with `Cycle` as its pass. */
  lemma {:induction false} RunIsLoop(s: State, fuel: nat, clock: nat -> bool, t: nat)
    ensures Run(s, fuel, clock, t) == Loop(Pass(), s, fuel, clock, t)
    decreases fuel
  {
    if fuel > 0 && s.isRunning && !s.integrityFailed {
      RunIsLoop(Cycle(s, clock(t)), fuel - 1, clock, t + 1);
    }
  }

  /** One pass of the loop, when it runs. */
  lemma LoopStep(step: (State, bool) -> State, s: State, fuel: nat, clock: nat -> bool, t: nat)
    requires fuel > 0 && s.isRunning && !s.integrityFailed
    ensures Loop(step, s, fuel, clock, t) == Loop(step, step(s, clock(t)), fuel - 1, clock, t + 1)
  {
  }

  /** A stopped loop stays where it is. */
  lemma LoopStopped(step: (State, bool) -> State, s: State, fuel: nat, clock: nat -> bool, t: nat)
    requires !s.isRunning || s.integrityFailed
    ensures Loop(step, s, fuel, clock, t) == s
  {
  }

  // ----- one pass, per opcode -----

  /** The loop fetches from inside the program. */
  predicate Live(s: State)
  {
    s.isRunning && !s.integrityFailed && 0 <= s.ip < |s.bytecode|
  }

  /** The pass `step` on a live state whose word at the pointer is `op`. */
  predicate At(s: State, op: Opcode)
  {
    Live(s) && s.bytecode[s.ip] == Code(op)
  }

  /** `step` is the pass of the loop, stated so that a pass is unfolded
      only where `Cycle` itself is mentioned. */
  ghost predicate IsCycle(step: (State, bool) -> State)
  {
    forall s, e {:trigger Cycle(s, e)} :: step(s, e) == Cycle(s, e)
  }

  /** The pass of `run` is the pass. */
  lemma CycleIsCycle()
    ensures IsCycle(Pass())
  {
  }

  /** `fold` is the fold of the checksum, stated, like the pass, so that the
      fold is unfolded only where `XorFold` itself is mentioned. */
  ghost predicate IsFold(fold: seq<Int32> -> Int32)
  {
    forall s {:trigger XorFold(s)} :: fold(s) == XorFold(s)
  }

  lemma XorFoldIsFold()
    ensures IsFold(Fold())
  {
  }

  // What one pass does on each opcode the built program uses, when its
  // operands are in range.

  lemma PassPush(step: (State, bool) -> State, s: State, e: bool) returns (next: State)
    requires IsCycle(step) && At(s, Push) && s.ip + 2 <= |s.bytecode|
    ensures next == s.(stack := s.stack + [s.bytecode[s.ip + 1]], ip := s.ip + 2)
    ensures step(s, e) == next
  {
    DecodeCode(Push);
    CycleDispatches(s, e, Push);
    next := s.(stack := s.stack + [s.bytecode[s.ip + 1]], ip := s.ip + 2);
  }

  lemma PassMutate(step: (State, bool) -> State, s: State, e: bool) returns (next: State)
    requires IsCycle(step) && At(s, Mutate) && s.ip + 3 <= |s.bytecode| && 0 <= s.bytecode[s.ip + 1] < |s.bytecode|
    ensures next == s.(bytecode := s.bytecode[s.bytecode[s.ip + 1] := s.bytecode[s.ip + 2]], ip := s.ip + 3)
    ensures step(s, e) == next
  {
    DecodeCode(Mutate);
    CycleDispatches(s, e, Mutate);
    SizeTBelow(s.bytecode[s.ip + 1], |s.bytecode|);
    next := s.(bytecode := s.bytecode[s.bytecode[s.ip + 1] := s.bytecode[s.ip + 2]], ip := s.ip + 3);
  }

  lemma PassChecksumCheck(step: (State, bool) -> State, s: State, e: bool) returns (next: State)
    requires IsCycle(step) && At(s, ChecksumCheck) && s.ip + 4 <= |s.bytecode|
    requires RangeInside(s.bytecode, s.bytecode[s.ip + 1], s.bytecode[s.ip + 2])
    requires Checksum(s.bytecode, s.bytecode[s.ip + 1], s.bytecode[s.ip + 2]) == s.bytecode[s.ip + 3]
    ensures next == s.(ip := s.ip + 4)
    ensures step(s, e) == next
  {
    DecodeCode(ChecksumCheck);
    CycleDispatches(s, e, ChecksumCheck);
    next := s.(ip := s.ip + 4);
  }

  lemma PassChecksumPush(step: (State, bool) -> State, s: State, e: bool) returns (next: State)
    requires IsCycle(step) && At(s, ChecksumPush) && s.ip + 3 <= |s.bytecode|
    requires RangeInside(s.bytecode, s.bytecode[s.ip + 1], s.bytecode[s.ip + 2])
    ensures next == s.(stack := s.stack + [Checksum(s.bytecode, s.bytecode[s.ip + 1], s.bytecode[s.ip + 2])], ip := s.ip + 3)
    ensures step(s, e) == next
  {
    DecodeCode(ChecksumPush);
    CycleDispatches(s, e, ChecksumPush);
    next := s.(stack := s.stack + [Checksum(s.bytecode, s.bytecode[s.ip + 1], s.bytecode[s.ip + 2])], ip := s.ip + 3);
  }

  lemma PassXor(step: (State, bool) -> State, s: State, e: bool) returns (next: State)
    requires IsCycle(step) && At(s, Xor) && |s.stack| >= 2
    ensures next == s.(stack := DropTwo(s.stack) + [Words.Xor(s.stack[|s.stack| - 2], s.stack[|s.stack| - 1])], ip := s.ip + 1)
    ensures step(s, e) == next
  {
    DecodeCode(Xor);
    CycleDispatches(s, e, Xor);
    next := s.(stack := DropTwo(s.stack) + [Words.Xor(s.stack[|s.stack| - 2], s.stack[|s.stack| - 1])], ip := s.ip + 1);
  }

  lemma PassRotl(step: (State, bool) -> State, s: State, e: bool) returns (next: State)
    requires IsCycle(step) && At(s, Rotl) && s.ip + 2 <= |s.bytecode| && s.stack != [] && 0 < s.bytecode[s.ip + 1] < 32
    ensures next == s.(stack := s.stack[..|s.stack| - 1] + [RotateLeft(s.stack[|s.stack| - 1], s.bytecode[s.ip + 1])], ip := s.ip + 2)
    ensures step(s, e) == next
  {
    DecodeCode(Rotl);
    CycleDispatches(s, e, Rotl);
    next := s.(stack := s.stack[..|s.stack| - 1] + [RotateLeft(s.stack[|s.stack| - 1], s.bytecode[s.ip + 1])], ip := s.ip + 2);
  }

  lemma PassCmp(step: (State, bool) -> State, s: State, e: bool) returns (next: State)
    requires IsCycle(step) && At(s, Cmp) && |s.stack| >= 2
    ensures next == s.(stack := DropTwo(s.stack) + [if s.stack[|s.stack| - 2] == s.stack[|s.stack| - 1] then 1 else 0], ip := s.ip + 1)
    ensures step(s, e) == next
  {
    DecodeCode(Cmp);
    CycleDispatches(s, e, Cmp);
    next := s.(stack := DropTwo(s.stack) + [if s.stack[|s.stack| - 2] == s.stack[|s.stack| - 1] then 1 else 0], ip := s.ip + 1);
  }

  lemma PassJumpIfEqual(step: (State, bool) -> State, s: State, e: bool) returns (next: State)
    requires IsCycle(step) && At(s, JumpIfEqual) && s.ip + 2 <= |s.bytecode| && s.stack != []
    ensures next == s.(stack := s.stack[..|s.stack| - 1],
                       ip := if s.stack[|s.stack| - 1] == 1 then s.bytecode[s.ip + 1] else s.ip + 2)
    ensures step(s, e) == next
  {
    DecodeCode(JumpIfEqual);
    CycleDispatches(s, e, JumpIfEqual);
    next := s.(stack := s.stack[..|s.stack| - 1],
               ip := if s.stack[|s.stack| - 1] == 1 then s.bytecode[s.ip + 1] else s.ip + 2);
  }

  lemma PassCallExternal(step: (State, bool) -> State, s: State, e: bool) returns (next: State)
    requires IsCycle(step) && At(s, CallExternal) && s.ip + 2 <= |s.bytecode| && s.bytecode[s.ip + 1] in s.externalCalls
    ensures next == s.(trace := s.trace + [s.externalCalls[s.bytecode[s.ip + 1]]], ip := s.ip + 2)
    ensures step(s, e) == next
  {
    DecodeCode(CallExternal);
    CycleDispatches(s, e, CallExternal);
    next := s.(trace := s.trace + [s.externalCalls[s.bytecode[s.ip + 1]]], ip := s.ip + 2);
  }

  lemma PassTimingCheck(step: (State, bool) -> State, s: State, e: bool) returns (next: State)
    requires IsCycle(step) && At(s, TimingCheck)
    ensures next == s.(integrityFailed := e, ip := s.ip + 1)
    ensures step(s, e) == next
  {
    DecodeCode(TimingCheck);
    CycleDispatches(s, e, TimingCheck);
    next := s.(integrityFailed := e, ip := s.ip + 1);
  }

  lemma PassRet(step: (State, bool) -> State, s: State, e: bool) returns (next: State)
    requires IsCycle(step) && At(s, Ret)
    ensures next == s.(isRunning := false, ip := s.ip + 1)
    ensures step(s, e) == next
  {
    DecodeCode(Ret);
    CycleDispatches(s, e, Ret);
    next := s.(isRunning := false, ip := s.ip + 1);
  }

  // The same passes as steps of the loop, with the operands named.

  lemma LoopPush(step: (State, bool) -> State, s: State, fuel: nat, clock: nat -> bool, t: nat, v: Int32)
    requires IsCycle(step) && At(s, Push) && fuel > 0
    requires s.ip + 2 <= |s.bytecode| && s.bytecode[s.ip + 1] == v
    ensures Loop(step, s, fuel, clock, t) == Loop(step, s.(stack := s.stack + [v], ip := s.ip + 2), fuel - 1, clock, t + 1)
  {
    var next := PassPush(step, s, clock(t));
    LoopStep(step, s, fuel, clock, t);
  }

  lemma LoopMutate(step: (State, bool) -> State, s: State, fuel: nat, clock: nat -> bool, t: nat, addr: Int32, v: Int32)
    requires IsCycle(step) && At(s, Mutate) && fuel > 0
    requires s.ip + 3 <= |s.bytecode| && s.bytecode[s.ip + 1] == addr && s.bytecode[s.ip + 2] == v && 0 <= addr < |s.bytecode|
    ensures Loop(step, s, fuel, clock, t) ==
      Loop(step, s.(bytecode := s.bytecode[addr := v], ip := s.ip + 3), fuel - 1, clock, t + 1)
  {
    var next := PassMutate(step, s, clock(t));
    LoopStep(step, s, fuel, clock, t);
  }

  lemma LoopChecksumCheck(step: (State, bool) -> State, s: State, fuel: nat, clock: nat -> bool, t: nat, start: Int32, size: Int32)
    requires IsCycle(step) && At(s, ChecksumCheck) && fuel > 0 && s.ip + 4 <= |s.bytecode|
    requires s.bytecode[s.ip + 1] == start && s.bytecode[s.ip + 2] == size && RangeInside(s.bytecode, start, size)
    requires Checksum(s.bytecode, start, size) == s.bytecode[s.ip + 3]
    ensures Loop(step, s, fuel, clock, t) == Loop(step, s.(ip := s.ip + 4), fuel - 1, clock, t + 1)
  {
    var next := PassChecksumCheck(step, s, clock(t));
    LoopStep(step, s, fuel, clock, t);
  }

  lemma LoopChecksumPush(step: (State, bool) -> State, s: State, fuel: nat, clock: nat -> bool, t: nat, start: Int32, size: Int32)
    requires IsCycle(step) && At(s, ChecksumPush) && fuel > 0 && s.ip + 3 <= |s.bytecode|
    requires s.bytecode[s.ip + 1] == start && s.bytecode[s.ip + 2] == size && RangeInside(s.bytecode, start, size)
    ensures Loop(step, s, fuel, clock, t) ==
      Loop(step, s.(stack := s.stack + [Checksum(s.bytecode, start, size)], ip := s.ip + 3), fuel - 1, clock, t + 1)
  {
    var next := PassChecksumPush(step, s, clock(t));
    LoopStep(step, s, fuel, clock, t);
  }

  lemma LoopXor(step: (State, bool) -> State, s: State, fuel: nat, clock: nat -> bool, t: nat, a: Int32, b: Int32)
    requires IsCycle(step) && At(s, Xor) && fuel > 0
    requires |s.stack| >= 2 && s.stack[|s.stack| - 2] == a && s.stack[|s.stack| - 1] == b
    ensures Loop(step, s, fuel, clock, t) ==
      Loop(step, s.(stack := DropTwo(s.stack) + [Words.Xor(a, b)], ip := s.ip + 1), fuel - 1, clock, t + 1)
  {
    var next := PassXor(step, s, clock(t));
    LoopStep(step, s, fuel, clock, t);
  }

  lemma LoopRotl(step: (State, bool) -> State, s: State, fuel: nat, clock: nat -> bool, t: nat, rest: seq<Int32>, a: Int32, n: Int32)
    requires IsCycle(step) && At(s, Rotl) && fuel > 0
    requires s.ip + 2 <= |s.bytecode| && s.bytecode[s.ip + 1] == n && 0 < n < 32 && s.stack == rest + [a]
    ensures Loop(step, s, fuel, clock, t) ==
      Loop(step, s.(stack := rest + [RotateLeft(a, n)], ip := s.ip + 2), fuel - 1, clock, t + 1)
  {
    assert s.stack[..|s.stack| - 1] == rest;
    var next := PassRotl(step, s, clock(t));
    LoopStep(step, s, fuel, clock, t);
  }

  lemma LoopCmp(step: (State, bool) -> State, s: State, fuel: nat, clock: nat -> bool, t: nat, a: Int32, b: Int32)
    requires IsCycle(step) && At(s, Cmp) && fuel > 0
    requires |s.stack| >= 2 && s.stack[|s.stack| - 2] == a && s.stack[|s.stack| - 1] == b
    ensures Loop(step, s, fuel, clock, t) ==
      Loop(step, s.(stack := DropTwo(s.stack) + [if a == b then 1 else 0], ip := s.ip + 1), fuel - 1, clock, t + 1)
  {
    var next := PassCmp(step, s, clock(t));
    LoopStep(step, s, fuel, clock, t);
  }

  lemma LoopJumpIfEqual(step: (State, bool) -> State, s: State, fuel: nat, clock: nat -> bool, t: nat, rest: seq<Int32>, flag: Int32, target: Int32)
    requires IsCycle(step) && At(s, JumpIfEqual) && fuel > 0
    requires s.ip + 2 <= |s.bytecode| && s.bytecode[s.ip + 1] == target && s.stack == rest + [flag]
    ensures Loop(step, s, fuel, clock, t) ==
      Loop(step, s.(stack := rest, ip := if flag == 1 then target else s.ip + 2), fuel - 1, clock, t + 1)
  {
    assert s.stack[..|s.stack| - 1] == rest;
    var next := PassJumpIfEqual(step, s, clock(t));
    LoopStep(step, s, fuel, clock, t);
  }

  lemma LoopCallExternal(step: (State, bool) -> State, s: State, fuel: nat, clock: nat -> bool, t: nat, id: Int32)
    requires IsCycle(step) && At(s, CallExternal) && fuel > 0
    requires s.ip + 2 <= |s.bytecode| && s.bytecode[s.ip + 1] == id && id in s.externalCalls
    ensures Loop(step, s, fuel, clock, t) ==
      Loop(step, s.(trace := s.trace + [s.externalCalls[id]], ip := s.ip + 2), fuel - 1, clock, t + 1)
  {
    var next := PassCallExternal(step, s, clock(t));
    LoopStep(step, s, fuel, clock, t);
  }

  // ----- the program, block by block -----

  /** Overwriting a word outside a slice leaves the slice as it was. */
  lemma UpdateOutside(code: seq<Int32>, j: int, v: Int32, lo: int, hi: int)
    requires 0 <= j < |code| && 0 <= lo <= hi <= |code| && (j < lo || hi <= j)
    ensures code[j := v][lo..hi] == code[lo..hi]
  {
  }

  /** Two values pushed above a third. */
  lemma PushTwo(a: Int32, b: Int32, c: Int32)
    ensures [a] + [b, c] == [a, b, c]
  {
  }

  /** Two values replaced by one, above a third. */
  lemma ReplaceTopTwo(a: Int32, b: Int32, c: Int32, k: Int32)
    ensures DropTwo([a, b, c]) + [k] == [a, k]
  {
  }

  /** The window of the second checksum, as a slice of the section. */
  lemma SectionWindow(code: seq<Int32>)
    requires |code| >= 42
    ensures code[19..34] == code[12..42][7..22]
  {
  }

  // The blocks of the built program, word by word. Each instruction is
  // followed by its trailer `mutate <its address> 8`.

  /** `push U` and `checksum_check 12 30 E` at 0. */
  predicate PrologueAt(code: seq<Int32>, userInput: Int32, expected: Int32)
  {
    |code| == 74 &&
    code[0] == Code(Push) && code[1] == userInput &&
    code[2] == Code(Mutate) && code[3] == 0 && code[4] == Code(PushJunk) &&
    code[5] == Code(ChecksumCheck) && code[6] == 12 && code[7] == 30 && code[8] == expected &&
    code[9] == Code(Mutate) && code[10] == 5 && code[11] == Code(PushJunk)
  }

  /** `checksum_push 12 30` and `checksum_push 19 15` at 12. */
  predicate ChecksumsAt(code: seq<Int32>)
  {
    |code| == 74 &&
    code[12] == Code(ChecksumPush) && code[13] == 12 && code[14] == 30 &&
    code[15] == Code(Mutate) && code[16] == 12 && code[17] == Code(PushJunk) &&
    code[18] == Code(ChecksumPush) && code[19] == 19 && code[20] == 15 &&
    code[21] == Code(Mutate) && code[22] == 18 && code[23] == Code(PushJunk)
  }

  /** `xor` and `rotl 5` at 24 (the trailer of `rotl` belongs to the next
      block). */
  predicate DeriveAt(code: seq<Int32>)
  {
    |code| == 74 &&
    code[24] == Code(Xor) && code[25] == Code(Mutate) && code[26] == 24 && code[27] == Code(PushJunk) &&
    code[28] == Code(Rotl) && code[29] == 5
  }

  /** The trailer of `rotl`, `cmp` and `jump_if_equal 58` at 30. */
  predicate CompareAt(code: seq<Int32>)
  {
    |code| == 74 &&
    code[30] == Code(Mutate) && code[31] == 28 && code[32] == Code(PushJunk) &&
    code[33] == Code(Cmp) && code[34] == Code(Mutate) && code[35] == 33 && code[36] == Code(PushJunk) &&
    code[37] == Code(JumpIfEqual) && code[38] == 58 &&
    code[39] == Code(Mutate) && code[40] == 37 && code[41] == Code(PushJunk)
  }

  /** The trailer `mutate addr 8` at `at`. */
  predicate TrailerAt(code: seq<Int32>, at: int, addr: Int32)
  {
    0 <= at && at + 3 <= |code| &&
    code[at] == Code(Mutate) && code[at + 1] == addr && code[at + 2] == Code(PushJunk)
  }

  /** The head of a branch at `at`: `call_external id`, then the write of
      `other` over its own operand. */
  predicate CallAt(code: seq<Int32>, at: int, id: Int32, other: Int32)
  {
    |code| == 74 && 0 <= at <= 63 &&
    code[at] == Code(CallExternal) && code[at + 1] == id &&
    code[at + 2] == Code(Mutate) && code[at + 3] == at && code[at + 4] == Code(PushJunk) &&
    code[at + 5] == Code(Mutate) && code[at + 6] == at + 1 && code[at + 7] == other &&
    code[at + 8] == Code(Mutate) && code[at + 9] == at + 5 && code[at + 10] == Code(PushJunk)
  }

  /** The end of a branch at `at`: `timing_check`, its trailer, `ret`. */
  predicate TailAt(code: seq<Int32>, at: int)
  {
    0 <= at && at + 5 <= |code| &&
    code[at] == Code(TimingCheck) && code[at + 1] == Code(Mutate) && code[at + 2] == at &&
    code[at + 3] == Code(PushJunk) && code[at + 4] == Code(Ret)
  }

  // A write below a block leaves the block as it was.

  lemma KeepChecksums(code: seq<Int32>, j: int, v: Int32)
    requires ChecksumsAt(code) && 0 <= j < 12
    ensures ChecksumsAt(code[j := v])
  {
  }

  lemma KeepDerive(code: seq<Int32>, j: int, v: Int32)
    requires DeriveAt(code) && 0 <= j < 24
    ensures DeriveAt(code[j := v])
  {
  }

  lemma KeepCompare(code: seq<Int32>, j: int, v: Int32)
    requires CompareAt(code) && 0 <= j < 30
    ensures CompareAt(code[j := v])
  {
  }

  lemma KeepTrailer(code: seq<Int32>, at: int, addr: Int32, j: int, v: Int32)
    requires TrailerAt(code, at, addr) && 0 <= j < at
    ensures TrailerAt(code[j := v], at, addr)
  {
  }

  lemma KeepCall(code: seq<Int32>, at: int, id: Int32, other: Int32, j: int, v: Int32)
    requires CallAt(code, at, id, other) && 0 <= j < at
    ensures CallAt(code[j := v], at, id, other)
  {
  }

  lemma KeepTail(code: seq<Int32>, at: int, j: int, v: Int32)
    requires TailAt(code, at) && 0 <= j < at
    ensures TailAt(code[j := v], at)
  {
  }

  /** The loop runs from `s`, a program of the built length. */
  predicate Entered(s: State, ip: Int32)
  {
    s.isRunning && !s.integrityFailed && s.ip == ip && |s.bytecode| == 74
  }

  /** Passes 0 to 3: `push U` and the check of the critical section, which
      passes. */
  lemma RunPrologue(step: (State, bool) -> State, fold: seq<Int32> -> Int32, s: State, fuel: nat, clock: nat -> bool, t: nat, userInput: Int32, expected: Int32)
    requires IsCycle(step) && IsFold(fold) && Entered(s, 0) && fuel >= 4
    requires PrologueAt(s.bytecode, userInput, expected) && fold(s.bytecode[12..42]) == expected
    ensures Loop(step, s, fuel, clock, t) ==
      Loop(step, s.(stack := s.stack + [userInput], ip := 12, bytecode := s.bytecode[0 := Code(PushJunk)][5 := Code(PushJunk)]),
           fuel - 4, clock, t + 4)
  {
    var code := s.bytecode;
    LoopPush(step, s, fuel, clock, t, userInput);
    var s1 := s.(stack := s.stack + [userInput], ip := 2);
    LoopMutate(step, s1, fuel - 1, clock, t + 1, 0, Code(PushJunk));
    var s2 := s1.(bytecode := code[0 := Code(PushJunk)], ip := 5);
    UpdateOutside(code, 0, Code(PushJunk), 12, 42);
    LoopChecksumCheck(step, s2, fuel - 2, clock, t + 2, 12, 30);
    var s3 := s2.(ip := 9);
    LoopMutate(step, s3, fuel - 3, clock, t + 3, 5, Code(PushJunk));
  }

  /** Passes 4 and 5: `checksum_push 12 30` and the `mutate` that follows. */
  lemma RunFirstChecksum(step: (State, bool) -> State, fold: seq<Int32> -> Int32, s: State, fuel: nat, clock: nat -> bool, t: nat)
    requires IsCycle(step) && IsFold(fold) && Entered(s, 12) && fuel >= 2
    requires s.bytecode[12] == Code(ChecksumPush) && s.bytecode[13] == 12 && s.bytecode[14] == 30
    requires s.bytecode[15] == Code(Mutate) && s.bytecode[16] == 12 && s.bytecode[17] == Code(PushJunk)
    ensures Loop(step, s, fuel, clock, t) ==
      Loop(step, s.(stack := s.stack + [fold(s.bytecode[12..42])], ip := 18, bytecode := s.bytecode[12 := Code(PushJunk)]),
           fuel - 2, clock, t + 2)
  {
    LoopChecksumPush(step, s, fuel, clock, t, 12, 30);
    var s1 := s.(stack := s.stack + [fold(s.bytecode[12..42])], ip := 15);
    LoopMutate(step, s1, fuel - 1, clock, t + 1, 12, Code(PushJunk));
  }

  /** Passes 6 and 7: `checksum_push 19 15` and the `mutate` that follows. */
  lemma RunSecondChecksum(step: (State, bool) -> State, fold: seq<Int32> -> Int32, s: State, fuel: nat, clock: nat -> bool, t: nat)
    requires IsCycle(step) && IsFold(fold) && Entered(s, 18) && fuel >= 2
    requires s.bytecode[18] == Code(ChecksumPush) && s.bytecode[19] == 19 && s.bytecode[20] == 15
    requires s.bytecode[21] == Code(Mutate) && s.bytecode[22] == 18 && s.bytecode[23] == Code(PushJunk)
    ensures Loop(step, s, fuel, clock, t) ==
      Loop(step, s.(stack := s.stack + [fold(s.bytecode[19..34])], ip := 24, bytecode := s.bytecode[18 := Code(PushJunk)]),
           fuel - 2, clock, t + 2)
  {
    LoopChecksumPush(step, s, fuel, clock, t, 19, 15);
    var s1 := s.(stack := s.stack + [fold(s.bytecode[19..34])], ip := 21);
    LoopMutate(step, s1, fuel - 1, clock, t + 1, 18, Code(PushJunk));
  }

  /** Passes 4 to 7: the two `checksum_push` instructions. C1 and C2 are the
      folds of the section and of its window as they stand when the section
      is entered. */
  lemma RunChecksums(step: (State, bool) -> State, fold: seq<Int32> -> Int32, s: State, fuel: nat, clock: nat -> bool, t: nat)
    requires IsCycle(step) && IsFold(fold) && Entered(s, 12) && fuel >= 4 && ChecksumsAt(s.bytecode)
    ensures Loop(step, s, fuel, clock, t) ==
      Loop(step, s.(stack := s.stack + [fold(s.bytecode[12..42]), fold(s.bytecode[19..34])],
                    ip := 24, bytecode := s.bytecode[12 := Code(PushJunk)][18 := Code(PushJunk)]),
           fuel - 4, clock, t + 4)
  {
    var code := s.bytecode;
    RunFirstChecksum(step, fold, s, fuel, clock, t);
    var s2 := s.(stack := s.stack + [fold(code[12..42])], ip := 18, bytecode := code[12 := Code(PushJunk)]);
    UpdateOutside(code, 12, Code(PushJunk), 19, 34);
    RunSecondChecksum(step, fold, s2, fuel - 2, clock, t + 2);
    assert s2.stack + [fold(code[19..34])] == s.stack + [fold(code[12..42]), fold(code[19..34])];
  }

  /** Passes 8 to 10: `xor` and `rotl 5`. */
  lemma RunDerive(step: (State, bool) -> State, s: State, fuel: nat, clock: nat -> bool, t: nat, c1: Int32, c2: Int32)
    requires IsCycle(step) && Entered(s, 24) && fuel >= 3 && DeriveAt(s.bytecode)
    requires |s.stack| >= 2 && s.stack[|s.stack| - 2] == c1 && s.stack[|s.stack| - 1] == c2
    ensures Loop(step, s, fuel, clock, t) ==
      Loop(step, s.(stack := DropTwo(s.stack) + [RotateLeft(Words.Xor(c1, c2), 5)], ip := 30,
                    bytecode := s.bytecode[24 := Code(PushJunk)]),
           fuel - 3, clock, t + 3)
  {
    var code := s.bytecode;
    LoopXor(step, s, fuel, clock, t, c1, c2);
    var s1 := s.(stack := DropTwo(s.stack) + [Words.Xor(c1, c2)], ip := 25);
    LoopMutate(step, s1, fuel - 1, clock, t + 1, 24, Code(PushJunk));
    var s2 := s1.(bytecode := code[24 := Code(PushJunk)], ip := 28);
    LoopRotl(step, s2, fuel - 2, clock, t + 2, DropTwo(s.stack), Words.Xor(c1, c2), 5);
  }

  /** Passes 11 to 14: the trailer of `rotl`, `cmp`, and the branch: to 58
      when the input equals the derived key, to 39 otherwise. */
  lemma RunCompare(step: (State, bool) -> State, s: State, fuel: nat, clock: nat -> bool, t: nat, userInput: Int32, key: Int32)
    requires IsCycle(step) && Entered(s, 30) && fuel >= 4 && CompareAt(s.bytecode)
    requires |s.stack| >= 2 && s.stack[|s.stack| - 2] == userInput && s.stack[|s.stack| - 1] == key
    ensures Loop(step, s, fuel, clock, t) ==
      Loop(step, s.(stack := DropTwo(s.stack), ip := if userInput == key then 58 else 39,
                    bytecode := s.bytecode[28 := Code(PushJunk)][33 := Code(PushJunk)]),
           fuel - 4, clock, t + 4)
  {
    var code := s.bytecode;
    LoopMutate(step, s, fuel, clock, t, 28, Code(PushJunk));
    var s1 := s.(bytecode := code[28 := Code(PushJunk)], ip := 33);
    LoopCmp(step, s1, fuel - 1, clock, t + 1, userInput, key);
    var flag: Int32 := if userInput == key then 1 else 0;
    var s2 := s1.(stack := DropTwo(s.stack) + [flag], ip := 34);
    LoopMutate(step, s2, fuel - 2, clock, t + 2, 33, Code(PushJunk));
    var s3 := s2.(bytecode := s1.bytecode[33 := Code(PushJunk)], ip := 37);
    LoopJumpIfEqual(step, s3, fuel - 3, clock, t + 3, DropTwo(s.stack), flag, 58);
  }

  /** From 58: `call_external S` and the writes after it. */
  lemma RunSuccessCall(step: (State, bool) -> State, s: State, fuel: nat, clock: nat -> bool, t: nat, successId: Int32, failureId: Int32)
    requires IsCycle(step) && Entered(s, 58) && fuel >= 4
    requires CallAt(s.bytecode, 58, successId, failureId) && successId in s.externalCalls
    ensures Loop(step, s, fuel, clock, t) ==
      Loop(step, s.(trace := s.trace + [s.externalCalls[successId]], ip := 69,
                    bytecode := s.bytecode[58 := Code(PushJunk)][59 := failureId][63 := Code(PushJunk)]),
           fuel - 4, clock, t + 4)
  {
    var code := s.bytecode;
    LoopCallExternal(step, s, fuel, clock, t, successId);
    var s1 := s.(trace := s.trace + [s.externalCalls[successId]], ip := 60);
    LoopMutate(step, s1, fuel - 1, clock, t + 1, 58, Code(PushJunk));
    var s2 := s1.(bytecode := code[58 := Code(PushJunk)], ip := 63);
    LoopMutate(step, s2, fuel - 2, clock, t + 2, 59, failureId);
    var s3 := s2.(bytecode := s2.bytecode[59 := failureId], ip := 66);
    LoopMutate(step, s3, fuel - 3, clock, t + 3, 63, Code(PushJunk));
  }

  /** From 39: the trailer of the branch, `call_external F` and the writes
      after it. */
  lemma RunFailureCall(step: (State, bool) -> State, s: State, fuel: nat, clock: nat -> bool, t: nat, successId: Int32, failureId: Int32)
    requires IsCycle(step) && Entered(s, 39) && fuel >= 5
    requires TrailerAt(s.bytecode, 39, 37) && CallAt(s.bytecode, 42, failureId, successId) && failureId in s.externalCalls
    ensures Loop(step, s, fuel, clock, t) ==
      Loop(step, s.(trace := s.trace + [s.externalCalls[failureId]], ip := 53,
                    bytecode := s.bytecode[37 := Code(PushJunk)][42 := Code(PushJunk)][43 := successId][47 := Code(PushJunk)]),
           fuel - 5, clock, t + 5)
  {
    var code := s.bytecode;
    LoopMutate(step, s, fuel, clock, t, 37, Code(PushJunk));
    var s1 := s.(bytecode := code[37 := Code(PushJunk)], ip := 42);
    LoopCallExternal(step, s1, fuel - 1, clock, t + 1, failureId);
    var s2 := s1.(trace := s.trace + [s.externalCalls[failureId]], ip := 44);
    LoopMutate(step, s2, fuel - 2, clock, t + 2, 42, Code(PushJunk));
    var s3 := s2.(bytecode := s1.bytecode[42 := Code(PushJunk)], ip := 47);
    LoopMutate(step, s3, fuel - 3, clock, t + 3, 43, successId);
    var s4 := s3.(bytecode := s3.bytecode[43 := successId], ip := 50);
    LoopMutate(step, s4, fuel - 4, clock, t + 4, 47, Code(PushJunk));
  }

  /** From the `timing_check` of a branch, the run ends with no fault and no
      further callback, whatever the clock says. */
  lemma RunTail(step: (State, bool) -> State, s: State, fuel: nat, clock: nat -> bool, t: nat)
    requires IsCycle(step) && s.isRunning && !s.integrityFailed && s.fault == None && fuel >= 3
    requires TailAt(s.bytecode, s.ip)
    ensures Loop(step, s, fuel, clock, t).fault == None
    ensures Loop(step, s, fuel, clock, t).trace == s.trace
    ensures var r := Loop(step, s, fuel, clock, t); !r.isRunning || r.integrityFailed
  {
    var code, ip := s.bytecode, s.ip;
    var e0, e2 := clock(t), clock(t + 2);
    var s1 := PassTimingCheck(step, s, e0);
    LoopStep(step, s, fuel, clock, t);
    if e0 {
      LoopStopped(step, s1, fuel - 1, clock, t + 1);
    } else {
      LoopMutate(step, s1, fuel - 1, clock, t + 1, ip, Code(PushJunk));
      var s2 := s1.(bytecode := code[ip := Code(PushJunk)], ip := ip + 4);
      var s3 := PassRet(step, s2, e2);
      LoopStep(step, s2, fuel - 2, clock, t + 2);
      LoopStopped(step, s3, fuel - 3, clock, t + 3);
    }
  }

  // ----- the run of the built program -----

  lemma PrologueWords(userInput: Int32, successId: Int32, failureId: Int32, expected: Int32)
    ensures PrologueAt(Layout(userInput, successId, failureId, expected), userInput, expected)
  {
    var code := Layout(userInput, successId, failureId, expected);
    var p := Prologue(userInput, expected);
    assert code == p + (CriticalSection() + (FailureBranch(successId, failureId) + SuccessBranch(successId, failureId)));
  }

  lemma ChecksumWords(userInput: Int32, successId: Int32, failureId: Int32, expected: Int32)
    ensures ChecksumsAt(Layout(userInput, successId, failureId, expected))
  {
    var code := Layout(userInput, successId, failureId, expected);
    var c := CriticalSection();
    assert code[12..42] == c by { LayoutBlocks(userInput, successId, failureId, expected); }
    assert code[12] == c[0] && code[13] == c[1] && code[14] == c[2] && code[15] == c[3] && code[16] == c[4] && code[17] == c[5];
    assert code[18] == c[6] && code[19] == c[7] && code[20] == c[8] && code[21] == c[9] && code[22] == c[10] && code[23] == c[11];
  }

  lemma DeriveWords(userInput: Int32, successId: Int32, failureId: Int32, expected: Int32)
    ensures DeriveAt(Layout(userInput, successId, failureId, expected))
  {
    var code := Layout(userInput, successId, failureId, expected);
    var c := CriticalSection();
    assert code[12..42] == c by { LayoutBlocks(userInput, successId, failureId, expected); }
    assert code[24] == c[12] && code[25] == c[13] && code[26] == c[14] && code[27] == c[15] && code[28] == c[16] && code[29] == c[17];
  }

  lemma CompareWords(userInput: Int32, successId: Int32, failureId: Int32, expected: Int32)
    ensures CompareAt(Layout(userInput, successId, failureId, expected))
    ensures TrailerAt(Layout(userInput, successId, failureId, expected), 39, 37)
  {
    var code := Layout(userInput, successId, failureId, expected);
    var c := CriticalSection();
    assert code[12..42] == c by { LayoutBlocks(userInput, successId, failureId, expected); }
    assert code[30] == c[18] && code[31] == c[19] && code[32] == c[20] && code[33] == c[21] && code[34] == c[22] && code[35] == c[23];
    assert code[36] == c[24] && code[37] == c[25] && code[38] == c[26] && code[39] == c[27] && code[40] == c[28] && code[41] == c[29];
  }

  lemma BranchWords(userInput: Int32, successId: Int32, failureId: Int32, expected: Int32)
    ensures var code := Layout(userInput, successId, failureId, expected);
      CallAt(code, 42, failureId, successId) && TailAt(code, 53) &&
      CallAt(code, 58, successId, failureId) && TailAt(code, 69)
  {
    LayoutBlocks(userInput, successId, failureId, expected);
  }

  /** `run()` on a fresh VM holding `code` and the callbacks `calls`. */
  function Started(code: Program, calls: map<Int32, Callback>): State
  {
    Initial().(bytecode := code, externalCalls := calls, isRunning := true)
  }

  /** After the integrity check: the input is on the stack, the prologue's
      two instructions are overwritten. */
  function Checked(code: Program, calls: map<Int32, Callback>, userInput: Int32): State
    requires |code| == 74
  {
    Started(code, calls).(stack := [userInput], ip := 12,
                          bytecode := code[0 := Code(PushJunk)][5 := Code(PushJunk)])
  }

  /** After the two `checksum_push`: the two folds are on the stack above
      the input. */
  function Summed(code: Program, calls: map<Int32, Callback>, userInput: Int32, c1: Int32, c2: Int32): State
    requires |code| == 74
  {
    Started(code, calls).(stack := [userInput, c1, c2], ip := 24,
                          bytecode := code[0 := Code(PushJunk)][5 := Code(PushJunk)][12 := Code(PushJunk)]
                                          [18 := Code(PushJunk)])
  }

  /** After `rotl 5`: the derived key is on the stack above the input. */
  function Keyed(code: Program, calls: map<Int32, Callback>, userInput: Int32, key: Int32): State
    requires |code| == 74
  {
    Started(code, calls).(stack := [userInput, key], ip := 30,
                          bytecode := code[0 := Code(PushJunk)][5 := Code(PushJunk)][12 := Code(PushJunk)]
                                          [18 := Code(PushJunk)][24 := Code(PushJunk)])
  }

  /** After `jump_if_equal`: the stack is empty again, the seven
      instructions run so far are overwritten, and the pointer is at the
      success branch exactly when the input equals the key. */
  function Branched(code: Program, calls: map<Int32, Callback>, userInput: Int32, key: Int32): State
    requires |code| == 74
  {
    Started(code, calls).(ip := if userInput == key then 58 else 39,
                          bytecode := code[0 := Code(PushJunk)][5 := Code(PushJunk)][12 := Code(PushJunk)]
                                          [18 := Code(PushJunk)][24 := Code(PushJunk)][28 := Code(PushJunk)]
                                          [33 := Code(PushJunk)])
  }

  /** Passes 0 to 3: the integrity check of the untouched section passes. */
  lemma RunToChecked(step: (State, bool) -> State, fold: seq<Int32> -> Int32, code: Program, calls: map<Int32, Callback>, userInput: Int32, expected: Int32, fuel: nat, clock: nat -> bool)
    requires PrologueAt(code, userInput, expected) && fold(code[12..42]) == expected
    requires IsCycle(step) && IsFold(fold) && fuel >= 4
    ensures Loop(step, Started(code, calls), fuel, clock, 0) ==
            Loop(step, Checked(code, calls, userInput), fuel - 4, clock, 4)
  {
    var s0 := Started(code, calls);
    RunPrologue(step, fold, s0, fuel, clock, 0, userInput, expected);
    assert s0.stack + [userInput] == [userInput];
  }

  /** Passes 4 to 7: the folds of the section and of its window, both as
      loaded, go on the stack. */
  lemma RunToSummed(step: (State, bool) -> State, fold: seq<Int32> -> Int32, code: Program, calls: map<Int32, Callback>, userInput: Int32, fuel: nat, clock: nat -> bool)
    requires ChecksumsAt(code)
    requires IsCycle(step) && IsFold(fold) && fuel >= 4
    ensures Loop(step, Checked(code, calls, userInput), fuel, clock, 4) ==
            Loop(step, Summed(code, calls, userInput, fold(code[12..42]), fold(code[19..34])), fuel - 4, clock, 8)
  {
    var s1 := Checked(code, calls, userInput);
    KeepChecksums(code, 0, Code(PushJunk));
    KeepChecksums(code[0 := Code(PushJunk)], 5, Code(PushJunk));
    RunChecksums(step, fold, s1, fuel, clock, 4);
    UpdateOutside(code, 0, Code(PushJunk), 12, 42);
    UpdateOutside(code[0 := Code(PushJunk)], 5, Code(PushJunk), 12, 42);
    UpdateOutside(code, 0, Code(PushJunk), 19, 34);
    UpdateOutside(code[0 := Code(PushJunk)], 5, Code(PushJunk), 19, 34);
    PushTwo(userInput, fold(code[12..42]), fold(code[19..34]));
  }

  /** Passes 8 to 10: `xor` and `rotl 5` turn the two folds into the key. */
  lemma RunToKeyed(step: (State, bool) -> State, code: Program, calls: map<Int32, Callback>, userInput: Int32, c1: Int32, c2: Int32, fuel: nat, clock: nat -> bool)
    requires DeriveAt(code)
    requires IsCycle(step) && fuel >= 3
    ensures Loop(step, Summed(code, calls, userInput, c1, c2), fuel, clock, 8) ==
            Loop(step, Keyed(code, calls, userInput, RotateLeft(Words.Xor(c1, c2), 5)), fuel - 3, clock, 11)
  {
    var s2 := Summed(code, calls, userInput, c1, c2);
    var b0 := code[0 := Code(PushJunk)];
    var b1 := b0[5 := Code(PushJunk)];
    KeepDerive(code, 0, Code(PushJunk));
    KeepDerive(b0, 5, Code(PushJunk));
    KeepDerive(b1, 12, Code(PushJunk));
    KeepDerive(b1[12 := Code(PushJunk)], 18, Code(PushJunk));
    RunDerive(step, s2, fuel, clock, 8, c1, c2);
    ReplaceTopTwo(userInput, c1, c2, RotateLeft(Words.Xor(c1, c2), 5));
  }

  /** The key the run derives from a section is the key of that section. */
  lemma SectionKey(code: seq<Int32>)
    requires |code| >= 42
    ensures RotateLeft(Words.Xor(XorFold(code[12..42]), XorFold(code[19..34])), 5) == DerivedKey(code[12..42])
  {
    SectionWindow(code);
  }

  /** Passes 11 to 14: the comparison and the branch. */
  lemma RunToBranch(step: (State, bool) -> State, code: Program, calls: map<Int32, Callback>, userInput: Int32, key: Int32, fuel: nat, clock: nat -> bool)
    requires CompareAt(code)
    requires IsCycle(step) && fuel >= 4
    ensures Loop(step, Keyed(code, calls, userInput, key), fuel, clock, 11) ==
            Loop(step, Branched(code, calls, userInput, key), fuel - 4, clock, 15)
  {
    var s3 := Keyed(code, calls, userInput, key);
    var b0 := code[0 := Code(PushJunk)];
    var b1 := b0[5 := Code(PushJunk)];
    var b2 := b1[12 := Code(PushJunk)];
    var b3 := b2[18 := Code(PushJunk)];
    KeepCompare(code, 0, Code(PushJunk));
    KeepCompare(b0, 5, Code(PushJunk));
    KeepCompare(b1, 12, Code(PushJunk));
    KeepCompare(b2, 18, Code(PushJunk));
    KeepCompare(b3, 24, Code(PushJunk));
    RunCompare(step, s3, fuel, clock, 11, userInput, key);
    assert DropTwo(s3.stack) == [];
  }

  /** Passes 15 on, when the input equals the key: the success callback
      runs, then the run ends, with no fault. */
  lemma RunSuccessBranch(step: (State, bool) -> State, code: Program, calls: map<Int32, Callback>, userInput: Int32,
                         successId: Int32, failureId: Int32, fuel: nat, clock: nat -> bool)
    requires CallAt(code, 58, successId, failureId) && TailAt(code, 69) && successId in calls
    requires IsCycle(step) && fuel >= 7
    ensures Loop(step, Branched(code, calls, userInput, userInput), fuel, clock, 15).fault == None
    ensures Loop(step, Branched(code, calls, userInput, userInput), fuel, clock, 15).trace == [calls[successId]]
    ensures var r := Loop(step, Branched(code, calls, userInput, userInput), fuel, clock, 15); !r.isRunning || r.integrityFailed
  {
    var s4 := Branched(code, calls, userInput, userInput);
    var b0 := code[0 := Code(PushJunk)];
    var b1 := b0[5 := Code(PushJunk)];
    var b2 := b1[12 := Code(PushJunk)];
    var b3 := b2[18 := Code(PushJunk)];
    var b4 := b3[24 := Code(PushJunk)];
    var b5 := b4[28 := Code(PushJunk)];
    var b6 := b5[33 := Code(PushJunk)];
    KeepCall(code, 58, successId, failureId, 0, Code(PushJunk));
    KeepCall(b0, 58, successId, failureId, 5, Code(PushJunk));
    KeepCall(b1, 58, successId, failureId, 12, Code(PushJunk));
    KeepCall(b2, 58, successId, failureId, 18, Code(PushJunk));
    KeepCall(b3, 58, successId, failureId, 24, Code(PushJunk));
    KeepCall(b4, 58, successId, failureId, 28, Code(PushJunk));
    KeepCall(b5, 58, successId, failureId, 33, Code(PushJunk));
    RunSuccessCall(step, s4, fuel, clock, 15, successId, failureId);
    var c0 := b6[58 := Code(PushJunk)];
    var c1 := c0[59 := failureId];
    KeepTail(code, 69, 0, Code(PushJunk));
    KeepTail(b0, 69, 5, Code(PushJunk));
    KeepTail(b1, 69, 12, Code(PushJunk));
    KeepTail(b2, 69, 18, Code(PushJunk));
    KeepTail(b3, 69, 24, Code(PushJunk));
    KeepTail(b4, 69, 28, Code(PushJunk));
    KeepTail(b5, 69, 33, Code(PushJunk));
    KeepTail(b6, 69, 58, Code(PushJunk));
    KeepTail(c0, 69, 59, failureId);
    KeepTail(c1, 69, 63, Code(PushJunk));
    var s5 := s4.(trace := s4.trace + [calls[successId]], ip := 69, bytecode := c1[63 := Code(PushJunk)]);
    RunTail(step, s5, fuel - 4, clock, 19);
  }

  /** Passes 15 on, when the input differs from the key: the failure
      callback runs, then the run ends, with no fault. */
  lemma RunFailureBranch(step: (State, bool) -> State, code: Program, calls: map<Int32, Callback>, userInput: Int32, key: Int32,
                         successId: Int32, failureId: Int32, fuel: nat, clock: nat -> bool)
    requires userInput != key
    requires TrailerAt(code, 39, 37) && CallAt(code, 42, failureId, successId) && TailAt(code, 53) && failureId in calls
    requires IsCycle(step) && fuel >= 8
    ensures Loop(step, Branched(code, calls, userInput, key), fuel, clock, 15).fault == None
    ensures Loop(step, Branched(code, calls, userInput, key), fuel, clock, 15).trace == [calls[failureId]]
    ensures var r := Loop(step, Branched(code, calls, userInput, key), fuel, clock, 15); !r.isRunning || r.integrityFailed
  {
    var s4 := Branched(code, calls, userInput, key);
    var b0 := code[0 := Code(PushJunk)];
    var b1 := b0[5 := Code(PushJunk)];
    var b2 := b1[12 := Code(PushJunk)];
    var b3 := b2[18 := Code(PushJunk)];
    var b4 := b3[24 := Code(PushJunk)];
    var b5 := b4[28 := Code(PushJunk)];
    var b6 := b5[33 := Code(PushJunk)];
    KeepTrailer(code, 39, 37, 0, Code(PushJunk));
    KeepTrailer(b0, 39, 37, 5, Code(PushJunk));
    KeepTrailer(b1, 39, 37, 12, Code(PushJunk));
    KeepTrailer(b2, 39, 37, 18, Code(PushJunk));
    KeepTrailer(b3, 39, 37, 24, Code(PushJunk));
    KeepTrailer(b4, 39, 37, 28, Code(PushJunk));
    KeepTrailer(b5, 39, 37, 33, Code(PushJunk));
    KeepCall(code, 42, failureId, successId, 0, Code(PushJunk));
    KeepCall(b0, 42, failureId, successId, 5, Code(PushJunk));
    KeepCall(b1, 42, failureId, successId, 12, Code(PushJunk));
    KeepCall(b2, 42, failureId, successId, 18, Code(PushJunk));
    KeepCall(b3, 42, failureId, successId, 24, Code(PushJunk));
    KeepCall(b4, 42, failureId, successId, 28, Code(PushJunk));
    KeepCall(b5, 42, failureId, successId, 33, Code(PushJunk));
    RunFailureCall(step, s4, fuel, clock, 15, successId, failureId);
    var c0 := b6[37 := Code(PushJunk)];
    var c1 := c0[42 := Code(PushJunk)];
    var c2 := c1[43 := successId];
    KeepTail(code, 53, 0, Code(PushJunk));
    KeepTail(b0, 53, 5, Code(PushJunk));
    KeepTail(b1, 53, 12, Code(PushJunk));
    KeepTail(b2, 53, 18, Code(PushJunk));
    KeepTail(b3, 53, 24, Code(PushJunk));
    KeepTail(b4, 53, 28, Code(PushJunk));
    KeepTail(b5, 53, 33, Code(PushJunk));
    KeepTail(b6, 53, 37, Code(PushJunk));
    KeepTail(c0, 53, 42, Code(PushJunk));
    KeepTail(c1, 53, 43, successId);
    KeepTail(c2, 53, 47, Code(PushJunk));
    var s5 := s4.(trace := s4.trace + [calls[failureId]], ip := 53, bytecode := c2[47 := Code(PushJunk)]);
    RunTail(step, s5, fuel - 5, clock, 20);
  }

  /** The key `rotl(c1 ^ c2, 5)` the run derives from the folds `fold` gives
      of the section at 12..41 and of its window at 19..33. */
  function RunKey(fold: seq<Int32> -> Int32, code: seq<Int32>): Int32
    requires |code| >= 42
  {
    RotateLeft(Words.Xor(fold(code[12..42]), fold(code[19..34])), 5)
  }

  /** Passes 0 to 7: the check passes and the two folds of the section as
      loaded go on the stack. */
  lemma RunToSummedFromStart(step: (State, bool) -> State, fold: seq<Int32> -> Int32, code: Program, calls: map<Int32, Callback>, userInput: Int32,
                             expected: Int32, fuel: nat, clock: nat -> bool)
    requires PrologueAt(code, userInput, expected) && fold(code[12..42]) == expected && ChecksumsAt(code)
    requires IsCycle(step) && IsFold(fold) && fuel >= 8
    ensures Loop(step, Started(code, calls), fuel, clock, 0) ==
            Loop(step, Summed(code, calls, userInput, fold(code[12..42]), fold(code[19..34])), fuel - 8, clock, 8)
  {
    RunToChecked(step, fold, code, calls, userInput, expected, fuel, clock);
    RunToSummed(step, fold, code, calls, userInput, fuel - 4, clock);
  }

  /** Passes 8 to 14: the key is derived from the two folds and the run
      branches on its comparison with the input. */
  lemma RunSummedToBranch(step: (State, bool) -> State, code: Program, calls: map<Int32, Callback>, userInput: Int32,
                          c1: Int32, c2: Int32, fuel: nat, clock: nat -> bool)
    requires DeriveAt(code) && CompareAt(code)
    requires IsCycle(step) && fuel >= 7
    ensures Loop(step, Summed(code, calls, userInput, c1, c2), fuel, clock, 8) ==
            Loop(step, Branched(code, calls, userInput, RotateLeft(Words.Xor(c1, c2), 5)), fuel - 7, clock, 15)
  {
    RunToKeyed(step, code, calls, userInput, c1, c2, fuel, clock);
    RunToBranch(step, code, calls, userInput, RotateLeft(Words.Xor(c1, c2), 5), fuel - 3, clock);
  }

  /** The whole run of such a program: no fault, and exactly one callback,
      chosen by that comparison. */
  lemma RunOutcome(step: (State, bool) -> State, fold: seq<Int32> -> Int32, code: Program, calls: map<Int32, Callback>, userInput: Int32, expected: Int32,
                   successId: Int32, failureId: Int32, fuel: nat, clock: nat -> bool)
    requires PrologueAt(code, userInput, expected) && fold(code[12..42]) == expected
    requires ChecksumsAt(code) && DeriveAt(code) && CompareAt(code) && TrailerAt(code, 39, 37)
    requires CallAt(code, 42, failureId, successId) && TailAt(code, 53) && CallAt(code, 58, successId, failureId) && TailAt(code, 69)
    requires successId in calls && failureId in calls
    requires IsCycle(step) && IsFold(fold) && fuel >= 23
    ensures Loop(step, Started(code, calls), fuel, clock, 0).fault == None
    ensures Loop(step, Started(code, calls), fuel, clock, 0).trace ==
            if userInput == RunKey(fold, code) then [calls[successId]] else [calls[failureId]]
    ensures var r := Loop(step, Started(code, calls), fuel, clock, 0); !r.isRunning || r.integrityFailed
  {
    var key := RunKey(fold, code);
    RunToSummedFromStart(step, fold, code, calls, userInput, expected, fuel, clock);
    RunSummedToBranch(step, code, calls, userInput, fold(code[12..42]), fold(code[19..34]), fuel - 8, clock);
    if userInput == key {
      RunSuccessBranch(step, code, calls, userInput, successId, failureId, fuel - 15, clock);
    } else {
      RunFailureBranch(step, code, calls, userInput, key, successId, failureId, fuel - 15, clock);
    }
  }

  /** The main result. `main` loads the program `Build` returns (whose
      expected checksum is the fold of its own critical section), registers
      the two callbacks and calls `run()`. Given 23 passes, the run never
      faults, and it shows "Auth Successful!" exactly when the input is
      `AuthKey()` and "Auth Failed." otherwise, once, whatever the timing
      check finds. */
  lemma AuthenticationOutcome(userInput: Int32, successId: Int32, expected: Int32, fuel: nat, clock: nat -> bool)
    requires expected == CalculateChecksum(Layout(userInput, successId, FailureId(successId), expected)[12..42])
    requires fuel >= 23
    ensures RunVm(Loaded(userInput, successId, expected), fuel, clock).fault == None
    ensures RunVm(Loaded(userInput, successId, expected), fuel, clock).trace ==
            if userInput == AuthKey() then [SuccessCallback] else [FailureCallback]
    ensures var r := RunVm(Loaded(userInput, successId, expected), fuel, clock); !r.isRunning || r.integrityFailed
  {
    var failureId := FailureId(successId);
    var code := Layout(userInput, successId, failureId, expected);
    var calls := Registered(successId);
    PrologueWords(userInput, successId, failureId, expected);
    ChecksumWords(userInput, successId, failureId, expected);
    DeriveWords(userInput, successId, failureId, expected);
    CompareWords(userInput, successId, failureId, expected);
    BranchWords(userInput, successId, failureId, expected);
    RegisteredCallbacks(successId);
    LayoutKey(userInput, successId, failureId, expected);
    CycleIsCycle();
    var s0 := Started(code, calls);
    assert Loaded(userInput, successId, expected).(isRunning := true) == s0;
    RunIsLoop(s0, fuel, clock, 0);
    XorFoldIsFold();
    SectionKey(code);
    RunOutcome(Pass(), Fold(), code, calls, userInput, expected, successId, failureId, fuel, clock);
  }

  /** `main` once the IDs are drawn and the key is read: construct the VM,
      register both callbacks, build and load the program, and run it (here
      for at most `fuel` passes). */
  method Authenticate(userInput: Int32, successId: Int32, fuel: nat, clock: nat -> bool) returns (vm: VM)
    requires fuel >= 23
    ensures vm.fault == None
    ensures vm.trace == if userInput == AuthKey() then [SuccessCallback] else [FailureCallback]
    ensures !vm.isRunning || vm.integrityFailed
  {
    vm := new VM();
    var failureId := FailureId(successId);
    vm.RegisterExternalCall(successId, SuccessCallback);
    vm.RegisterExternalCall(failureId, FailureCallback);
    var bytecode := Build(userInput, successId, failureId);
    vm.LoadBytecode(bytecode);
    ghost var expected := CalculateChecksum(bytecode[CriticalStart..CriticalStart + CriticalLength]);
    assert vm.State() == Loaded(userInput, successId, expected);
    vm.Run(fuel, clock);
    AuthenticationOutcome(userInput, successId, expected, fuel, clock);
  }
}
