/** What the handlers and the loop of `VM.cpp` promise, stated over the
    functions of `Machine`. */
module MachineProperties {
  import opened Words
  import opened Dispatch
  import opened Machine

  // ----- one pass of the loop -----

  /** A pass with the pointer inside the program fetches the word there,
      moves past it and runs the handler its dispatch key selects. */
  lemma CycleDispatches(s: State, elapsed: bool, op: Opcode)
    requires 0 <= s.ip < |s.bytecode| && Decode(s.bytecode[s.ip]) == Handler(op)
    ensures Fetched(s.(ip := s.ip + 1))
    ensures Cycle(s, elapsed) == Execute(op, s.(ip := s.ip + 1), elapsed)
  {
    SizeTBelow(s.ip, |s.bytecode|);
  }

  /** No handler clears the integrity flag, and only `add`, `timing_check`
      and `checksum_check` set it. */
  lemma ExecuteIntegrityFlag(op: Opcode, s: State, elapsed: bool)
    requires Fetched(s)
    ensures var r := Execute(op, s, elapsed);
      (s.integrityFailed ==> r.integrityFailed) &&
      (r.integrityFailed && !s.integrityFailed ==> op in {Add, TimingCheck, ChecksumCheck})
  {
    match op
    case Push =>
    case Pop =>
    case Add =>
    case Ret =>
    case CallExternal =>
    case Cmp =>
    case JumpIfEqual =>
    case Sub =>
    case PushJunk =>
    case Xor =>
    case Mutate =>
    case TimingCheck =>
    case ChecksumCheck =>
    case ChecksumPush =>
    case Rotl =>
  }

  /** A handler appends at most one callback to the trace, and only
      `call_external` with a registered id does. */
  lemma ExecuteTrace(op: Opcode, s: State, elapsed: bool)
    requires Fetched(s)
    ensures var r := Execute(op, s, elapsed);
      |s.trace| <= |r.trace| <= |s.trace| + 1 && r.trace[..|s.trace|] == s.trace &&
      (|r.trace| == |s.trace| + 1 ==>
        op == CallExternal && HasOperands(s, 1) && s.bytecode[s.ip] in s.externalCalls &&
        r.trace[|s.trace|] == s.externalCalls[s.bytecode[s.ip]])
  {
    match op
    case Push =>
    case Pop =>
    case Add =>
    case Ret =>
    case CallExternal =>
    case Cmp =>
    case JumpIfEqual =>
    case Sub =>
    case PushJunk =>
    case Xor =>
    case Mutate =>
    case TimingCheck =>
    case ChecksumCheck =>
    case ChecksumPush =>
    case Rotl =>
  }

  /** A handler either keeps running with no new fault, or halts with a
      fault, or is `ret`, which only halts. */
  lemma ExecuteStops(op: Opcode, s: State, elapsed: bool)
    requires Fetched(s)
    ensures var r := Execute(op, s, elapsed);
      (r.isRunning == s.isRunning && r.fault == s.fault) ||
      (!r.isRunning && r.fault.Some?) ||
      (op == Ret && r == s.(isRunning := false))
  {
    match op
    case Push =>
    case Pop =>
    case Add =>
    case Ret =>
    case CallExternal =>
    case Cmp =>
    case JumpIfEqual =>
    case Sub =>
    case PushJunk =>
    case Xor =>
    case Mutate =>
    case TimingCheck =>
    case ChecksumCheck =>
    case ChecksumPush =>
    case Rotl =>
  }

  // ----- halting -----

  /** A pass of the loop ends the run without a fault, and without touching
      the integrity flag, the stack or the program, exactly when the pointer
      is outside the program (negative included), or the word there is `ret`,
      or its dispatch key has no handler. */
  lemma CycleHalts(s: State, elapsed: bool)
    requires s.isRunning && s.fault == None
    ensures var r := Cycle(s, elapsed);
      (!r.isRunning && r.fault == None) <==>
        (!(0 <= s.ip < |s.bytecode|) || Decode(s.bytecode[s.ip]) in {Handler(Ret), Unknown})
    ensures var r := Cycle(s, elapsed);
      !r.isRunning && r.fault == None ==>
        r.integrityFailed == s.integrityFailed && r.stack == s.stack && r.bytecode == s.bytecode
  {
    SizeTBelow(s.ip, |s.bytecode|);
    if 0 <= s.ip < |s.bytecode| && Decode(s.bytecode[s.ip]).Handler? {
      var op := Decode(s.bytecode[s.ip]).op;
      CycleDispatches(s, elapsed, op);
      ExecuteStops(op, s.(ip := s.ip + 1), elapsed);
    }
  }

  // ----- the integrity flag -----

  /** No pass of the loop clears the flag, and only `add`, `timing_check` and
      `checksum_check` set it. */
  lemma CycleIntegrityFlag(s: State, elapsed: bool)
    ensures s.integrityFailed ==> Cycle(s, elapsed).integrityFailed
    ensures Cycle(s, elapsed).integrityFailed && !s.integrityFailed ==>
      0 <= s.ip < |s.bytecode| &&
      Decode(s.bytecode[s.ip]) in {Handler(Add), Handler(TimingCheck), Handler(ChecksumCheck)}
  {
    SizeTBelow(s.ip, |s.bytecode|);
    if 0 <= s.ip < |s.bytecode| && Decode(s.bytecode[s.ip]).Handler? {
      var op := Decode(s.bytecode[s.ip]).op;
      CycleDispatches(s, elapsed, op);
      ExecuteIntegrityFlag(op, s.(ip := s.ip + 1), elapsed);
    }
  }

  /** A pass that sets the flag is the last one: the next iteration of the loop
      returns before fetching anything. */
  lemma NoStepAfterIntegrityFailure(s: State, fuel: nat, clock: nat -> bool, t: nat)
    requires fuel > 0 && s.isRunning && !s.integrityFailed
    requires Cycle(s, clock(t)).integrityFailed
    ensures Run(s, fuel, clock, t) == Cycle(s, clock(t))
  {
    var c := Cycle(s, clock(t));
    assert Run(s, fuel, clock, t) == Run(c, fuel - 1, clock, t + 1);
    assert Run(c, fuel - 1, clock, t + 1) == c;
  }

  /** `run` on a VM whose flag was set by an earlier run returns at once and
      leaves `is_running` set. */
  lemma RunAfterIntegrityFailure(s: State, fuel: nat, clock: nat -> bool)
    requires s.integrityFailed
    ensures RunVm(s, fuel, clock) == s.(isRunning := true)
  {
  }

  /** The pointer is not reset by `run`: a VM that halted at the end of its
      program halts again at once, with nothing else changed. */
  lemma RunResumesAtPointer(s: State, fuel: nat, clock: nat -> bool)
    requires fuel > 0 && !s.integrityFailed
    requires !(0 <= s.ip < |s.bytecode|)
    ensures RunVm(s, fuel, clock) == s.(isRunning := false)
  {
    SizeTBelow(s.ip, |s.bytecode|);
    var c := Cycle(s.(isRunning := true), clock(0));
    assert c == s.(isRunning := false);
    assert Run(c, fuel - 1, clock, 1) == c;
  }

  // ----- external calls -----

  /** The callbacks a pass runs are appended to those already run, at most
      one per pass and only by `call_external` with a registered id. */
  lemma CycleTraceGrows(s: State, elapsed: bool)
    ensures var r := Cycle(s, elapsed);
      |s.trace| <= |r.trace| <= |s.trace| + 1 && r.trace[..|s.trace|] == s.trace
    ensures var r := Cycle(s, elapsed);
      |r.trace| == |s.trace| + 1 ==>
        0 <= s.ip < |s.bytecode| - 1 && Decode(s.bytecode[s.ip]) == Handler(CallExternal) &&
        s.bytecode[s.ip + 1] in s.externalCalls &&
        r.trace[|s.trace|] == s.externalCalls[s.bytecode[s.ip + 1]]
  {
    SizeTBelow(s.ip, |s.bytecode|);
    if !(0 <= s.ip < |s.bytecode|) {
      assert Cycle(s, elapsed) == Halt(s);
    } else if Decode(s.bytecode[s.ip]).Handler? {
      var op := Decode(s.bytecode[s.ip]).op;
      CycleDispatches(s, elapsed, op);
      ExecuteTrace(op, s.(ip := s.ip + 1), elapsed);
    } else {
      assert Cycle(s, elapsed).trace == s.trace;
    }
  }

  /** No handler changes the callback registry. */
  lemma ExecuteKeepsRegistry(op: Opcode, s: State, elapsed: bool)
    requires Fetched(s)
    ensures Execute(op, s, elapsed).externalCalls == s.externalCalls
  {
    match op
    case Push =>
    case Pop =>
    case Add =>
    case Ret =>
    case CallExternal =>
    case Cmp =>
    case JumpIfEqual =>
    case Sub =>
    case PushJunk =>
    case Xor =>
    case Mutate =>
    case TimingCheck =>
    case ChecksumCheck =>
    case ChecksumPush =>
    case Rotl =>
  }

  /** A pass keeps the callback registry. */
  lemma CycleKeepsRegistry(s: State, elapsed: bool)
    ensures Cycle(s, elapsed).externalCalls == s.externalCalls
  {
    SizeTBelow(s.ip, |s.bytecode|);
    if !(0 <= s.ip < |s.bytecode|) {
      assert Cycle(s, elapsed) == Halt(s);
    } else if Decode(s.bytecode[s.ip]).Handler? {
      var op := Decode(s.bytecode[s.ip]).op;
      CycleDispatches(s, elapsed, op);
      ExecuteKeepsRegistry(op, s.(ip := s.ip + 1), elapsed);
    }
  }

  /** The callback registry stays as it is for the whole run. */
  lemma {:induction false} RunKeepsRegistry(s: State, fuel: nat, clock: nat -> bool, t: nat)
    ensures Run(s, fuel, clock, t).externalCalls == s.externalCalls
    decreases fuel
  {
    if fuel > 0 && s.isRunning && !s.integrityFailed {
      CycleKeepsRegistry(s, clock(t));
      RunKeepsRegistry(Cycle(s, clock(t)), fuel - 1, clock, t + 1);
    }
  }

  /** A run only ever adds callbacks to the trace. */
  lemma {:induction false} RunTraceGrows(s: State, fuel: nat, clock: nat -> bool, t: nat)
    ensures var r := Run(s, fuel, clock, t);
      |s.trace| <= |r.trace| && r.trace[..|s.trace|] == s.trace
    decreases fuel
  {
    if fuel > 0 && s.isRunning && !s.integrityFailed {
      var c := Cycle(s, clock(t));
      CycleTraceGrows(s, clock(t));
      RunTraceGrows(c, fuel - 1, clock, t + 1);
    }
  }

  /** `call_external` moves past its operand and runs the callback registered
      for it; an unregistered id does nothing else. */
  lemma CallExternalEffect(s: State)
    requires Fetched(s) && HasOperands(s, 1)
    ensures var r := ExecCallExternal(s); var id := s.bytecode[s.ip];
      r.ip == s.ip + 1 &&
      r.trace == s.trace + (if id in s.externalCalls then [s.externalCalls[id]] else []) &&
      r == s.(ip := s.ip + 1, trace := r.trace)
    ensures s.bytecode[s.ip] !in s.externalCalls ==> ExecCallExternal(s) == s.(ip := s.ip + 1)
  {
  }

  // ----- stack effects -----

  /** `push` appends its immediate, which `get_result` then returns. */
  lemma PushEffect(s: State)
    requires Fetched(s) && HasOperands(s, 1)
    ensures var r := ExecPush(s);
      r.stack == s.stack + [s.bytecode[s.ip]] && Result(r) == s.bytecode[s.ip] &&
      r.ip == s.ip + 1 && r.bytecode == s.bytecode &&
      r.integrityFailed == s.integrityFailed && r.isRunning == s.isRunning && r.fault == s.fault
  {
  }

  /** `pop` removes the top value, and does nothing on an empty stack. */
  lemma PopEffect(s: State)
    ensures s.stack == [] ==> ExecPop(s) == s
    ensures s.stack != [] ==> ExecPop(s).stack + [Result(s)] == s.stack && ExecPop(s).ip == s.ip
    ensures s.stack != [] ==> ExecPop(s) == s.(stack := ExecPop(s).stack)
  {
  }

  /** `push_junk` only moves past the one word after it, which it never reads:
      the result is the same whatever that word holds. */
  lemma PushJunkEffect(s: State, w: Int32)
    requires Fetched(s)
    ensures ExecPushJunk(s) == s.(ip := s.ip + 1)
    ensures s.ip < |s.bytecode| ==>
      var t := s.(bytecode := s.bytecode[s.ip := w]);
      ExecPushJunk(t) == ExecPushJunk(s).(bytecode := t.bytecode)
  {
  }

  /** `timing_check` sets the flag exactly when the clock says the time is up,
      and changes nothing else; it never clears the flag. */
  lemma TimingCheckEffect(s: State, elapsed: bool)
    ensures var r := ExecTimingCheck(s, elapsed);
      r.integrityFailed == (s.integrityFailed || elapsed) &&
      r == s.(integrityFailed := r.integrityFailed)
  {
  }

  /** `add`, `sub`, `xor` and `cmp` pop `b`, then `a`, and push one value; the
      stack shrinks by one. `add` and `sub` fault exactly on signed overflow. */
  lemma BinaryEffect(s: State, op: Opcode, elapsed: bool)
    requires Fetched(s) && s.fault == None && |s.stack| >= 2 && op in {Add, Sub, Xor, Cmp}
    ensures var r := Execute(op, s, elapsed); var n := |s.stack|;
      var a: int, b: int := s.stack[n - 2], s.stack[n - 1];
      (r.fault == s.fault <==> (op == Add ==> InInt32(a + b)) && (op == Sub ==> InInt32(a - b))) &&
      (r.fault == s.fault ==>
        |r.stack| == n - 1 && r.stack[..n - 2] == s.stack[..n - 2] && r.ip == s.ip &&
        r.bytecode == s.bytecode && r.isRunning == s.isRunning &&
        (op == Add ==> Result(r) == a + b) &&
        (op == Sub ==> Result(r) == a - b) &&
        (op == Xor ==> Result(r) == Words.Xor(a, b) && Words.Xor(Result(r), b) == a) &&
        (op == Cmp ==> (Result(r) == 1 <==> a == b) && (Result(r) == 0 <==> a != b)))
  {
    var n := |s.stack|;
    var a, b := s.stack[n - 2], s.stack[n - 1];
    match op
    case Add =>
    case Sub =>
    case Xor =>
      XorCancel(a, b);
    case Cmp =>
  }

  /** With fewer than two values, `add`, `sub`, `xor` and `cmp` fault and leave
      the stack alone. */
  lemma BinaryUnderflow(s: State, op: Opcode, elapsed: bool)
    requires Fetched(s) && |s.stack| < 2 && op in {Add, Sub, Xor, Cmp}
    ensures var r := Execute(op, s, elapsed);
      r.fault == Some(StackUnderflow) && !r.isRunning && r.stack == s.stack && r.ip == s.ip
  {
  }

  /** `add` sets the integrity flag exactly when the first program word is
      neither `push` nor `push_junk`, even when it then faults. */
  lemma AddChecksProgramShape(s: State)
    requires Fetched(s)
    ensures ExecAdd(s).integrityFailed <==>
      s.integrityFailed || (s.bytecode[0] != Code(Push) && s.bytecode[0] != Code(PushJunk))
  {
  }

  // ----- control flow -----

  /** `jump_if_equal` pops the condition and consumes its operand; it jumps
      when the condition is 1 and the flag is clear, and otherwise moves past
      the operand. */
  lemma JumpIfEqualEffect(s: State)
    requires Fetched(s) && s.stack != [] && HasOperands(s, 1)
    ensures var r := ExecJumpIfEqual(s); var cond, addr := Result(s), s.bytecode[s.ip];
      r.stack == s.stack[..|s.stack| - 1] &&
      (cond == 1 && !s.integrityFailed ==> r.ip == addr) &&
      (cond != 1 || s.integrityFailed ==> r.ip == s.ip + 1) &&
      r.bytecode == s.bytecode && r.integrityFailed == s.integrityFailed &&
      r.isRunning == s.isRunning && r.fault == s.fault
  {
  }

  /** `jump_if_equal` on an empty stack faults before reading its operand. */
  lemma JumpIfEqualUnderflow(s: State)
    requires Fetched(s) && s.stack == []
    ensures ExecJumpIfEqual(s) == Fail(s, StackUnderflow)
  {
  }

  // ----- self-modification -----

  /** `mutate` writes its value at `addr` when `0 <= addr < size`; a negative
      address fails the `size_t` comparison and is ignored. No other word
      changes, the stack is untouched and the pointer moves by 2. */
  lemma MutateEffect(s: State)
    requires Fetched(s) && HasOperands(s, 2)
    ensures var r := ExecMutate(s); var addr, val := s.bytecode[s.ip], s.bytecode[s.ip + 1];
      |r.bytecode| == |s.bytecode| &&
      (forall i :: 0 <= i < |s.bytecode| ==> r.bytecode[i] == (if i == addr then val else s.bytecode[i])) &&
      r.stack == s.stack && r.ip == s.ip + 2 &&
      r.integrityFailed == s.integrityFailed && r.isRunning == s.isRunning && r.fault == s.fault
    ensures s.bytecode[s.ip] < 0 ==> ExecMutate(s).bytecode == s.bytecode
  {
    SizeTBelow(s.bytecode[s.ip], |s.bytecode|);
  }

  // ----- checksums -----

  /** An empty range folds to 0. */
  lemma ChecksumOfEmptyRange(code: seq<Int32>, start: Int32)
    requires 0 <= start <= |code|
    ensures Checksum(code, start, 0) == 0
  {
    assert code[start..start] == [];
  }

  /** Folding two adjacent ranges and combining the folds with `^` is folding
      their union. */
  lemma ChecksumOfAdjacentRanges(code: Program, start: Int32, len1: Int32, len2: Int32)
    requires 0 <= start && 0 <= len1 && 0 <= len2 && start + len1 + len2 <= |code|
    ensures Checksum(code, start, len1 + len2) ==
      Words.Xor(Checksum(code, start, len1), Checksum(code, start + len1, len2))
  {
    var whole := code[start..start + len1 + len2];
    XorFoldSplit(whole, len1);
    assert whole[..len1] == code[start..start + len1];
    assert whole[len1..] == code[start + len1..start + len1 + len2];
  }

  /** `checksum_push` pushes the fold of its range and moves past its two
      operands. */
  lemma ChecksumPushEffect(s: State)
    requires Fetched(s) && HasOperands(s, 2)
    requires RangeInside(s.bytecode, s.bytecode[s.ip], s.bytecode[s.ip + 1])
    ensures var r := ExecChecksumPush(s); var start, len := s.bytecode[s.ip], s.bytecode[s.ip + 1];
      r.stack == s.stack + [XorFold(s.bytecode[start..start + len])] &&
      (len == 0 ==> Result(r) == 0) &&
      r == s.(ip := s.ip + 2, stack := r.stack)
  {
    if s.bytecode[s.ip + 1] == 0 {
      ChecksumOfEmptyRange(s.bytecode, s.bytecode[s.ip]);
    }
  }

  /** `checksum_check` sets the flag exactly when the fold of its range differs
      from its expected value, and otherwise only moves past its operands. */
  lemma ChecksumCheckEffect(s: State)
    requires Fetched(s) && HasOperands(s, 3)
    requires RangeInside(s.bytecode, s.bytecode[s.ip], s.bytecode[s.ip + 1])
    ensures var r := ExecChecksumCheck(s);
      var start, len, expected := s.bytecode[s.ip], s.bytecode[s.ip + 1], s.bytecode[s.ip + 2];
      r.integrityFailed == (s.integrityFailed || XorFold(s.bytecode[start..start + len]) != expected) &&
      r == s.(ip := s.ip + 3, integrityFailed := r.integrityFailed)
  {
  }

  /** `checksum_check` faults on a range outside the program. */
  lemma ChecksumRangeFault(s: State)
    requires Fetched(s) && HasOperands(s, 3)
    requires !RangeInside(s.bytecode, s.bytecode[s.ip], s.bytecode[s.ip + 1])
    ensures ExecChecksumCheck(s) == Fail(s, ChecksumRangeOutOfRange)
  {
  }

  /** `checksum_push` reads only two operands and faults on a range outside
      the program, also when those operands are the last words. */
  lemma ChecksumPushRangeFault(s: State)
    requires Fetched(s) && HasOperands(s, 2)
    requires !RangeInside(s.bytecode, s.bytecode[s.ip], s.bytecode[s.ip + 1])
    ensures ExecChecksumPush(s) == Fail(s, ChecksumRangeOutOfRange)
  {
  }

  // ----- rotation -----

  /** `rotl` replaces the top value with its rotation; a second `rotl` by the
      complementary count restores it. */
  lemma RotlEffect(s: State)
    requires Fetched(s) && HasOperands(s, 1) && s.stack != [] && 0 < s.bytecode[s.ip] < 32
    ensures var r := ExecRotl(s); var bits := s.bytecode[s.ip];
      r.stack[..|r.stack| - 1] == s.stack[..|s.stack| - 1] &&
      Bits(Result(r)) == Bits(Result(s))[32 - bits..] + Bits(Result(s))[..32 - bits] &&
      RotateLeft(Result(r), 32 - bits) == Result(s) &&
      r.ip == s.ip + 1 && r.bytecode == s.bytecode &&
      r.integrityFailed == s.integrityFailed && r.isRunning == s.isRunning && r.fault == s.fault
  {
    var bits := s.bytecode[s.ip];
    RotateLeftBits(Result(s), bits);
    RotateLeftRoundTrip(Result(s), bits);
  }

  /** A shift count of 0 or of 32 and more has no defined meaning in the
      source; the model faults on it. */
  lemma RotlShiftFault(s: State)
    requires Fetched(s) && HasOperands(s, 1) && s.stack != [] && !(0 < s.bytecode[s.ip] < 32)
    ensures ExecRotl(s) == Fail(s, ShiftOutOfRange)
  {
  }

  // ----- a small program -----

  /** The first two passes of `push a; push b; op; ret` push both values. */
  lemma ProgramPushes(op: Opcode, a: Int32, b: Int32, fuel: nat, clock: nat -> bool)
    requires fuel >= 2
    ensures var s0 := Initial().(bytecode := [Code(Push), a, Code(Push), b, Code(op), Code(Ret)], isRunning := true);
      Run(s0, fuel, clock, 0) == Run(s0.(stack := [a, b], ip := 4), fuel - 2, clock, 2)
  {
    var s0 := Initial().(bytecode := [Code(Push), a, Code(Push), b, Code(op), Code(Ret)], isRunning := true);
    DecodeCode(Push);
    assert Cycle(s0, clock(0)) == s0.(stack := [a], ip := 2);
    assert Cycle(s0.(stack := [a], ip := 2), clock(1)) == s0.(stack := [a, b], ip := 4);
  }

  /** The last two passes of `push a; push b; add; ret`: `add` replaces the
      two values by their sum and `ret` stops the run. */
  lemma AddProgramAdds(a: Int32, b: Int32, fuel: nat, clock: nat -> bool)
    requires fuel >= 2 && InInt32(a + b)
    ensures var s0 := Initial().(bytecode := [Code(Push), a, Code(Push), b, Code(Add), Code(Ret)], isRunning := true);
      Run(s0.(stack := [a, b], ip := 4), fuel, clock, 2) == s0.(stack := [a + b], ip := 6, isRunning := false)
  {
    var s0 := Initial().(bytecode := [Code(Push), a, Code(Push), b, Code(Add), Code(Ret)], isRunning := true);
    var s2 := s0.(stack := [a, b], ip := 4);
    var s3 := s0.(stack := [a + b], ip := 5);
    DecodeCode(Add);
    CycleDispatches(s2, clock(2), Add);
    assert Cycle(s2, clock(2)) == s3;
    RunUnfolds(s2, fuel, clock, 2);
    DecodeCode(Ret);
    CycleDispatches(s3, clock(3), Ret);
    assert Cycle(s3, clock(3)) == s3.(ip := 6, isRunning := false);
    RunUnfolds(s3, fuel - 1, clock, 3);
    RunStopped(s3.(ip := 6, isRunning := false), fuel - 2, clock, 4);
  }

  /** `push a; push b; add; ret` leaves `a + b` as the result. */
  lemma AddProgram(a: Int32, b: Int32, fuel: nat, clock: nat -> bool)
    requires fuel >= 4 && InInt32(a + b)
    ensures var r := RunVm(Initial().(bytecode := [Code(Push), a, Code(Push), b, Code(Add), Code(Ret)]), fuel, clock);
      Result(r) == a + b && !r.isRunning && !r.integrityFailed && r.fault == None && r.ip == 6
  {
    var s0 := Initial().(bytecode := [Code(Push), a, Code(Push), b, Code(Add), Code(Ret)]);
    assert RunVm(s0, fuel, clock) == Run(s0.(isRunning := true), fuel, clock, 0);
    ProgramPushes(Add, a, b, fuel, clock);
    AddProgramAdds(a, b, fuel - 2, clock);
    var r := s0.(stack := [a + b], ip := 6);
    assert Result(r) == a + b;
  }

  /** The last two passes of `push a; push b; cmp; ret`. */
  lemma CmpProgramFinishes(a: Int32, b: Int32, fuel: nat, clock: nat -> bool)
    requires fuel >= 2
    ensures var s0 := Initial().(bytecode := [Code(Push), a, Code(Push), b, Code(Cmp), Code(Ret)], isRunning := true);
      Run(s0.(stack := [a, b], ip := 4), fuel, clock, 2) == s0.(stack := [if a == b then 1 else 0], ip := 6, isRunning := false)
  {
    var s0 := Initial().(bytecode := [Code(Push), a, Code(Push), b, Code(Cmp), Code(Ret)], isRunning := true);
    var s2 := s0.(stack := [a, b], ip := 4);
    var s3 := s0.(stack := [if a == b then 1 else 0], ip := 5);
    DecodeCode(Cmp);
    CycleDispatches(s2, clock(2), Cmp);
    assert Cycle(s2, clock(2)) == s3;
    RunUnfolds(s2, fuel, clock, 2);
    DecodeCode(Ret);
    CycleDispatches(s3, clock(3), Ret);
    assert Cycle(s3, clock(3)) == s3.(ip := 6, isRunning := false);
    RunUnfolds(s3, fuel - 1, clock, 3);
    RunStopped(s3.(ip := 6, isRunning := false), fuel - 2, clock, 4);
  }

  /** `push a; push b; cmp; ret` halts at 6 without fault, flag or callback,
      with exactly 1 on the stack when `a == b` and 0 otherwise. */
  lemma CmpProgram(a: Int32, b: Int32, fuel: nat, clock: nat -> bool)
    requires fuel >= 4
    ensures var code := [Code(Push), a, Code(Push), b, Code(Cmp), Code(Ret)];
      RunVm(Initial().(bytecode := code), fuel, clock) == Initial().(bytecode := code, stack := [if a == b then 1 else 0], ip := 6)
  {
    var s0 := Initial().(bytecode := [Code(Push), a, Code(Push), b, Code(Cmp), Code(Ret)]);
    assert RunVm(s0, fuel, clock) == Run(s0.(isRunning := true), fuel, clock, 0);
    ProgramPushes(Cmp, a, b, fuel, clock);
    CmpProgramFinishes(a, b, fuel - 2, clock);
  }
}
