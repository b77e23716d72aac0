/** `class VM` of `VM.h`/`VM.cpp`: the same fields, updated in place by the
    same methods. Every method is proved to take the object from state `s` to
    the state the matching function of `Machine` gives for `s`, so what
    `MachineProperties` proves about those functions holds of the class. */
module Interpreter {
  import opened Words
  import opened Dispatch
  import opened Machine
  import MachineProperties

  /** `initialize_handlers`: stores each opcode under the key
      `(opcode * 17 + 3) % 50`, one assignment per opcode. */
  method InitializeHandlers() returns (handlers: map<int, Opcode>)
    ensures handlers == HandlerTable()
  {
    handlers := map[];
    handlers := handlers[HandlerKey(Push) := Push];
    handlers := handlers[HandlerKey(Pop) := Pop];
    handlers := handlers[HandlerKey(Add) := Add];
    handlers := handlers[HandlerKey(Ret) := Ret];
    handlers := handlers[HandlerKey(CallExternal) := CallExternal];
    handlers := handlers[HandlerKey(Cmp) := Cmp];
    handlers := handlers[HandlerKey(JumpIfEqual) := JumpIfEqual];
    handlers := handlers[HandlerKey(Sub) := Sub];
    handlers := handlers[HandlerKey(PushJunk) := PushJunk];
    handlers := handlers[HandlerKey(Xor) := Xor];
    handlers := handlers[HandlerKey(Mutate) := Mutate];
    handlers := handlers[HandlerKey(TimingCheck) := TimingCheck];
    handlers := handlers[HandlerKey(ChecksumCheck) := ChecksumCheck];
    handlers := handlers[HandlerKey(ChecksumPush) := ChecksumPush];
    handlers := handlers[HandlerKey(Rotl) := Rotl];
    HandlerKeyValues();
  }

  class VM {
    var bytecode: Program
    var stack: seq<Int32>
    var instructionPointer: Int32
    var externalCalls: map<Int32, Callback>
    var integrityFailed: bool
    var isRunning: bool
    /** The undefined behaviour the run hit, if any. */
    var fault: Option<Fault>
    /** The callbacks `call_external` has run, in order. */
    var trace: seq<Callback>
    const opcodeHandlers: map<int, Opcode>

    ghost function State(): Machine.State
      reads this
    {
      Machine.State(bytecode, stack, instructionPointer, externalCalls, integrityFailed, isRunning, fault, trace)
    }

    ghost predicate Valid()
      reads this
    {
      opcodeHandlers == HandlerTable()
    }

    /** `VM()`: the field initialisers of `VM.h`, then `initialize_handlers`. */
    constructor ()
      ensures Valid() && State() == Initial()
    {
      var handlers := InitializeHandlers();
      bytecode := [];
      stack := [];
      instructionPointer := 0;
      externalCalls := map[];
      integrityFailed := false;
      isRunning := false;
      fault := None;
      trace := [];
      opcodeHandlers := handlers;
    }

    /** Replaces the program; the pointer, stack and flags are kept. */
    method LoadBytecode(code: Program)
      modifies this
      ensures State() == old(State()).(bytecode := code)
    {
      bytecode := code;
    }

    /** Registers `callback` under `id`, replacing an earlier registration. */
    method RegisterExternalCall(id: Int32, callback: Callback)
      modifies this
      ensures id in externalCalls && externalCalls[id] == callback
      ensures State() == old(State()).(externalCalls := old(externalCalls)[id := callback])
    {
      externalCalls := externalCalls[id := callback];
    }

    /** `get_result()`. */
    method GetResult() returns (r: Int32)
      ensures r == Result(State())
      ensures stack == [] ==> r == 0
      ensures stack != [] ==> r == stack[|stack| - 1]
    {
      if stack != [] {
        return stack[|stack| - 1];
      }
      return 0;
    }

    /** Stops the run on undefined behaviour of the source. */
    method Stop(f: Fault)
      modifies this
      ensures State() == Fail(old(State()), f)
    {
      isRunning := false;
      fault := Some(f);
    }

    // ----- the handlers -----

    method HandlePush()
      requires Fetched(State())
      modifies this
      ensures State() == ExecPush(old(State()))
    {
      if instructionPointer >= |bytecode| {
        Stop(OperandOutOfRange);
        return;
      }
      var v := bytecode[instructionPointer];
      instructionPointer := instructionPointer + 1;
      stack := stack + [v];
    }

    method HandlePop()
      modifies this
      ensures State() == ExecPop(old(State()))
    {
      if stack != [] {
        stack := stack[..|stack| - 1];
      }
    }

    method HandleAdd()
      requires Fetched(State())
      modifies this
      ensures State() == ExecAdd(old(State()))
    {
      if bytecode[0] != Code(PushJunk) && bytecode[0] != Code(Push) {
        integrityFailed := true;
      }
      if |stack| < 2 {
        Stop(StackUnderflow);
        return;
      }
      var b := stack[|stack| - 1];
      var a := stack[|stack| - 2];
      if !InInt32(a as int + b) {
        Stop(ArithmeticOverflow);
        return;
      }
      stack := stack[..|stack| - 1];
      stack := stack[..|stack| - 1];
      stack := stack + [a + b];
    }

    method HandleRet()
      modifies this
      ensures State() == ExecRet(old(State()))
    {
      isRunning := false;
    }

    method HandleCallExternal()
      requires Fetched(State())
      modifies this
      ensures State() == ExecCallExternal(old(State()))
    {
      if instructionPointer >= |bytecode| {
        Stop(OperandOutOfRange);
        return;
      }
      var id := bytecode[instructionPointer];
      instructionPointer := instructionPointer + 1;
      if id in externalCalls {
        trace := trace + [externalCalls[id]];
      }
    }

    method HandleCmp()
      modifies this
      ensures State() == ExecCmp(old(State()))
    {
      if |stack| < 2 {
        Stop(StackUnderflow);
        return;
      }
      var b := stack[|stack| - 1];
      stack := stack[..|stack| - 1];
      var a := stack[|stack| - 1];
      stack := stack[..|stack| - 1];
      stack := stack + [if a == b then 1 else 0];
    }

    method HandleJumpIfEqual()
      requires Fetched(State())
      modifies this
      ensures State() == ExecJumpIfEqual(old(State()))
    {
      if stack == [] {
        Stop(StackUnderflow);
        return;
      }
      if instructionPointer >= |bytecode| {
        Stop(OperandOutOfRange);
        return;
      }
      var cond := stack[|stack| - 1];
      stack := stack[..|stack| - 1];
      var addr := bytecode[instructionPointer];
      instructionPointer := instructionPointer + 1;
      if cond == 1 && !integrityFailed {
        instructionPointer := addr;
      }
    }

    method HandleSub()
      modifies this
      ensures State() == ExecSub(old(State()))
    {
      if |stack| < 2 {
        Stop(StackUnderflow);
        return;
      }
      var b := stack[|stack| - 1];
      var a := stack[|stack| - 2];
      if !InInt32(a as int - b) {
        Stop(ArithmeticOverflow);
        return;
      }
      stack := stack[..|stack| - 1];
      stack := stack[..|stack| - 1];
      stack := stack + [a - b];
    }

    method HandlePushJunk()
      requires Fetched(State())
      modifies this
      ensures State() == ExecPushJunk(old(State()))
    {
      instructionPointer := instructionPointer + 1;
    }

    method HandleXor()
      modifies this
      ensures State() == ExecXor(old(State()))
    {
      if |stack| < 2 {
        Stop(StackUnderflow);
        return;
      }
      var b := stack[|stack| - 1];
      stack := stack[..|stack| - 1];
      var a := stack[|stack| - 1];
      stack := stack[..|stack| - 1];
      stack := stack + [Words.Xor(a, b)];
    }

    method HandleMutate()
      requires Fetched(State())
      modifies this
      ensures State() == ExecMutate(old(State()))
    {
      if instructionPointer + 2 > |bytecode| {
        Stop(OperandOutOfRange);
        return;
      }
      var addr := bytecode[instructionPointer];
      instructionPointer := instructionPointer + 1;
      var val := bytecode[instructionPointer];
      instructionPointer := instructionPointer + 1;
      if SizeT(addr) < |bytecode| {
        SizeTBelow(addr, |bytecode|);
        bytecode := bytecode[addr := val];
      }
    }

    /** `elapsed`: the clock read, truncated to whole seconds, exceeds 2. */
    method HandleTimingCheck(elapsed: bool)
      modifies this
      ensures State() == ExecTimingCheck(old(State()), elapsed)
    {
      if elapsed {
        integrityFailed := true;
      }
    }

    method HandleChecksumCheck()
      requires Fetched(State())
      modifies this
      ensures State() == ExecChecksumCheck(old(State()))
    {
      if instructionPointer + 3 > |bytecode| {
        Stop(OperandOutOfRange);
        return;
      }
      var start := bytecode[instructionPointer];
      var len := bytecode[instructionPointer + 1];
      var expected := bytecode[instructionPointer + 2];
      if !RangeInside(bytecode, start, len) {
        Stop(ChecksumRangeOutOfRange);
        return;
      }
      instructionPointer := instructionPointer + 3;
      var actual := XorFold(bytecode[start..start + len]);
      if actual != expected {
        integrityFailed := true;
      }
    }

    method HandleChecksumPush()
      requires Fetched(State())
      modifies this
      ensures State() == ExecChecksumPush(old(State()))
    {
      if instructionPointer + 2 > |bytecode| {
        Stop(OperandOutOfRange);
        return;
      }
      var start := bytecode[instructionPointer];
      var len := bytecode[instructionPointer + 1];
      if !RangeInside(bytecode, start, len) {
        Stop(ChecksumRangeOutOfRange);
        return;
      }
      instructionPointer := instructionPointer + 2;
      var actual := XorFold(bytecode[start..start + len]);
      stack := stack + [actual];
    }

    method HandleRotl()
      requires Fetched(State())
      modifies this
      ensures State() == ExecRotl(old(State()))
    {
      if instructionPointer >= |bytecode| {
        Stop(OperandOutOfRange);
        return;
      }
      if stack == [] {
        Stop(StackUnderflow);
        return;
      }
      var bits := bytecode[instructionPointer];
      if !(0 < bits < 32) {
        Stop(ShiftOutOfRange);
        return;
      }
      instructionPointer := instructionPointer + 1;
      var v := stack[|stack| - 1];
      stack := stack[..|stack| - 1];
      stack := stack + [RotateLeft(v, bits)];
    }

    method HandleUnknown()
      modifies this
      ensures State() == Halt(old(State()))
    {
      isRunning := false;
    }

    /** Calls the handler stored for `op`. */
    method Execute(op: Opcode, elapsed: bool)
      requires Fetched(State())
      modifies this
      ensures State() == Machine.Execute(op, old(State()), elapsed)
    {
      match op
      case Push => HandlePush();
      case Pop => HandlePop();
      case Add => HandleAdd();
      case Ret => HandleRet();
      case CallExternal => HandleCallExternal();
      case Cmp => HandleCmp();
      case JumpIfEqual => HandleJumpIfEqual();
      case Sub => HandleSub();
      case PushJunk => HandlePushJunk();
      case Xor => HandleXor();
      case Mutate => HandleMutate();
      case TimingCheck => HandleTimingCheck(elapsed);
      case ChecksumCheck => HandleChecksumCheck();
      case ChecksumPush => HandleChecksumPush();
      case Rotl => HandleRotl();
    }

    // ----- the loop -----

    /** One pass of `run`'s loop after its integrity check. */
    method Step(elapsed: bool)
      requires Valid()
      modifies this
      ensures Valid() && State() == Cycle(old(State()), elapsed)
    {
      if SizeT(instructionPointer) >= |bytecode| {
        isRunning := false;
        return;
      }
      SizeTBelow(instructionPointer, |bytecode|);
      ghost var s := State();
      var opcode := bytecode[instructionPointer];
      instructionPointer := instructionPointer + 1;
      var key := DispatchKey(opcode);
      if key.None? {
        assert Decode(opcode) == KeyOverflow;
        Stop(DispatchOverflow);
      } else if key.value in opcodeHandlers {
        var op := opcodeHandlers[key.value];
        MachineProperties.CycleDispatches(s, elapsed, op);
        assert State() == s.(ip := s.ip + 1);
        Execute(op, elapsed);
      } else {
        assert Decode(opcode) == Unknown;
        HandleUnknown();
      }
    }

    /** `run()` for at most `fuel` passes of its loop; `clock(n)` is the
        timing oracle for pass `n`. */
    method Run(fuel: nat, clock: nat -> bool)
      requires Valid()
      modifies this
      ensures Valid() && State() == RunVm(old(State()), fuel, clock)
    {
      isRunning := true;
      var n: nat := 0;
      while n < fuel && isRunning
        invariant n <= fuel && Valid()
        invariant Machine.Run(State(), fuel - n, clock, n) == RunVm(old(State()), fuel, clock)
        decreases fuel - n
      {
        if integrityFailed {
          RunStopped(State(), fuel - n, clock, n);
          return;
        }
        ghost var before := State();
        Step(clock(n));
        RunUnfolds(before, fuel - n, clock, n);
        n := n + 1;
      }
      RunStopped(State(), fuel - n, clock, n);
    }
  }
}
