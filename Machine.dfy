/** The interpreter of `VM.cpp` as functions on its state: one function per
    opcode handler, `Cycle` for one pass of the `while (is_running)` loop after
    its integrity check, and `Run` for the loop itself, bounded by a fuel
    count. The class in `Interpreter.dfy` is proved to follow these functions
    step for step; the lemmas here state what the handlers and the loop
    promise.

    Where the source has undefined behaviour (a read past the end of the
    program, `stack.back()` on an empty stack, a checksum range outside the
    program, a shift by 0 or by 32 or more, signed overflow) the model halts the
    run with an explicit `Fault` instead: `is_running` becomes false, the fault
    is recorded, and the stack, pointer and program are left as they were when
    the handler started (the flag `add` sets before its pops is kept). */
module Machine {
  import opened Words
  import opened Dispatch

  /** The undefined behaviours of the source, made explicit. */
  datatype Fault =
    | OperandOutOfRange        // `bytecode[instruction_pointer++]` past the end
    | StackUnderflow           // `stack.back()` on an empty stack
    | ChecksumRangeOutOfRange  // `bytecode.begin() + start (+ len)` outside the vector
    | ShiftOutOfRange          // `u << bits` or `u >> (32 - bits)` with bits outside 1..31
    | ArithmeticOverflow       // signed overflow in `a + b` or `a - b`
    | DispatchOverflow         // signed overflow in `opcode * 17 + 3`

  /** A registered `std::function<void()>`; the model only needs to tell
      callbacks apart, so it records which one an external call ran. */
  datatype Callback = Callback(name: string)

  /** A program the `int` instruction pointer can walk to the end of (and one
      past it) without overflowing. */
  type Program = s: seq<Int32> | |s| < MaxInt32

  /** The fields of `class VM` that change while it runs, plus the record of
      faults and of the callbacks that ran. */
  datatype State = State(
    bytecode: Program,
    stack: seq<Int32>,
    ip: Int32,
    externalCalls: map<Int32, Callback>,
    integrityFailed: bool,
    isRunning: bool,
    fault: Option<Fault>,
    trace: seq<Callback>)

  /** A freshly constructed VM. */
  function Initial(): State
  {
    State([], [], 0, map[], false, false, None, [])
  }

  /** `get_result()`: the top of the stack, or 0 when it is empty. */
  function Result(s: State): Int32
  {
    if s.stack == [] then 0 else s.stack[|s.stack| - 1]
  }

  function Halt(s: State): State
  {
    s.(isRunning := false)
  }

  function Fail(s: State, f: Fault): State
  {
    s.(isRunning := false, fault := Some(f))
  }

  /** What holds when a handler runs: the opcode word has just been fetched. */
  predicate Fetched(s: State)
  {
    1 <= s.ip <= |s.bytecode|
  }

  /** The next `n` words after the pointer are inside the program. */
  predicate HasOperands(s: State, n: nat)
  {
    s.ip + n <= |s.bytecode|
  }

  /** The `k`-th inline operand. */
  function Operand(s: State, k: nat): Int32
    requires Fetched(s) && HasOperands(s, k + 1)
  {
    s.bytecode[s.ip + k]
  }

  /** `[begin() + start, begin() + start + len)` is a valid iterator range. */
  predicate RangeInside(code: seq<Int32>, start: Int32, len: Int32)
  {
    0 <= start && 0 <= len && start + len <= |code|
  }

  /** The XOR fold both checksum opcodes compute over a program range. */
  function Checksum(code: seq<Int32>, start: Int32, len: Int32): Int32
    requires RangeInside(code, start, len)
  {
    XorFold(code[start..start + len])
  }

  /** The stack without its top two values. */
  function DropTwo(stack: seq<Int32>): seq<Int32>
    requires |stack| >= 2
  {
    stack[..|stack| - 2]
  }

  // ----- the handlers -----

  function ExecPush(s: State): State
    requires Fetched(s)
  {
    if !HasOperands(s, 1) then Fail(s, OperandOutOfRange)
    else s.(stack := s.stack + [Operand(s, 0)], ip := s.ip + 1)
  }

  function ExecPop(s: State): State
  {
    if s.stack == [] then s else s.(stack := s.stack[..|s.stack| - 1])
  }

  /** `add` first checks the shape of the program: its first word must be
      `push` or `push_junk`, or the integrity flag is set. */
  function ExecAdd(s: State): State
    requires Fetched(s)
  {
    var first := s.bytecode[0];
    var t := if first != Code(PushJunk) && first != Code(Push) then s.(integrityFailed := true) else s;
    if |t.stack| < 2 then Fail(t, StackUnderflow)
    else
      var a: int, b: int := t.stack[|t.stack| - 2], t.stack[|t.stack| - 1];
      if !InInt32(a + b) then Fail(t, ArithmeticOverflow)
      else t.(stack := DropTwo(t.stack) + [a + b])
  }

  function ExecSub(s: State): State
  {
    if |s.stack| < 2 then Fail(s, StackUnderflow)
    else
      var a: int, b: int := s.stack[|s.stack| - 2], s.stack[|s.stack| - 1];
      if !InInt32(a - b) then Fail(s, ArithmeticOverflow)
      else s.(stack := DropTwo(s.stack) + [a - b])
  }

  function ExecXor(s: State): State
  {
    if |s.stack| < 2 then Fail(s, StackUnderflow)
    else
      var a, b := s.stack[|s.stack| - 2], s.stack[|s.stack| - 1];
      s.(stack := DropTwo(s.stack) + [Words.Xor(a, b)])
  }

  function ExecCmp(s: State): State
  {
    if |s.stack| < 2 then Fail(s, StackUnderflow)
    else
      var a, b := s.stack[|s.stack| - 2], s.stack[|s.stack| - 1];
      s.(stack := DropTwo(s.stack) + [if a == b then 1 else 0])
  }

  function ExecRet(s: State): State
  {
    Halt(s)
  }

  /** Runs the callback registered for the operand, if there is one. */
  function ExecCallExternal(s: State): State
    requires Fetched(s)
  {
    if !HasOperands(s, 1) then Fail(s, OperandOutOfRange)
    else
      var id := Operand(s, 0);
      var t := s.(ip := s.ip + 1);
      if id in s.externalCalls then t.(trace := t.trace + [s.externalCalls[id]]) else t
  }

  /** Pops the condition, then reads the target. */
  function ExecJumpIfEqual(s: State): State
    requires Fetched(s)
  {
    if s.stack == [] then Fail(s, StackUnderflow)
    else if !HasOperands(s, 1) then Fail(s, OperandOutOfRange)
    else
      var cond := s.stack[|s.stack| - 1];
      var addr := Operand(s, 0);
      s.(stack := s.stack[..|s.stack| - 1],
         ip := if cond == 1 && !s.integrityFailed then addr else s.ip + 1)
  }

  /** Skips one word without reading it. */
  function ExecPushJunk(s: State): State
    requires Fetched(s)
  {
    s.(ip := s.ip + 1)
  }

  /** Overwrites `bytecode[addr]` when `addr < bytecode.size()` as `size_t`. */
  function ExecMutate(s: State): State
    requires Fetched(s)
  {
    if !HasOperands(s, 2) then Fail(s, OperandOutOfRange)
    else
      var addr, val := Operand(s, 0), Operand(s, 1);
      var t := s.(ip := s.ip + 2);
      if SizeT(addr) < |s.bytecode| then
        SizeTBelow(addr, |s.bytecode|);
        t.(bytecode := s.bytecode[addr := val])
      else t
  }

  /** `elapsed`: the time since `run` started, truncated to whole seconds,
      exceeds 2 (so at least 3 seconds have passed). */
  function ExecTimingCheck(s: State, elapsed: bool): State
  {
    if elapsed then s.(integrityFailed := true) else s
  }

  function ExecChecksumCheck(s: State): State
    requires Fetched(s)
  {
    if !HasOperands(s, 3) then Fail(s, OperandOutOfRange)
    else
      var start, len, expected := Operand(s, 0), Operand(s, 1), Operand(s, 2);
      if !RangeInside(s.bytecode, start, len) then Fail(s, ChecksumRangeOutOfRange)
      else
        var t := s.(ip := s.ip + 3);
        if Checksum(s.bytecode, start, len) != expected then t.(integrityFailed := true) else t
  }

  function ExecChecksumPush(s: State): State
    requires Fetched(s)
  {
    if !HasOperands(s, 2) then Fail(s, OperandOutOfRange)
    else
      var start, len := Operand(s, 0), Operand(s, 1);
      if !RangeInside(s.bytecode, start, len) then Fail(s, ChecksumRangeOutOfRange)
      else s.(stack := s.stack + [Checksum(s.bytecode, start, len)], ip := s.ip + 2)
  }

  /** Reads the shift count, then pops the value. */
  function ExecRotl(s: State): State
    requires Fetched(s)
  {
    if !HasOperands(s, 1) then Fail(s, OperandOutOfRange)
    else if s.stack == [] then Fail(s, StackUnderflow)
    else
      var bits := Operand(s, 0);
      if !(0 < bits < 32) then Fail(s, ShiftOutOfRange)
      else
        var v := s.stack[|s.stack| - 1];
        s.(stack := s.stack[..|s.stack| - 1] + [RotateLeft(v, bits)], ip := s.ip + 1)
  }

  /** The handler `opcode_handlers` holds for `op`. */
  function Execute(op: Opcode, s: State, elapsed: bool): State
    requires Fetched(s)
  {
    match op
    case Push => ExecPush(s)
    case Pop => ExecPop(s)
    case Add => ExecAdd(s)
    case Ret => ExecRet(s)
    case CallExternal => ExecCallExternal(s)
    case Cmp => ExecCmp(s)
    case JumpIfEqual => ExecJumpIfEqual(s)
    case Sub => ExecSub(s)
    case PushJunk => ExecPushJunk(s)
    case Xor => ExecXor(s)
    case Mutate => ExecMutate(s)
    case TimingCheck => ExecTimingCheck(s, elapsed)
    case ChecksumCheck => ExecChecksumCheck(s)
    case ChecksumPush => ExecChecksumPush(s)
    case Rotl => ExecRotl(s)
  }

  // ----- the loop -----

  /** One pass of the loop once the integrity check has passed: halt at the
      end of the program (a negative pointer compares as a huge `size_t`),
      otherwise fetch a word and run the handler its dispatch key selects. */
  function Cycle(s: State, elapsed: bool): State
  {
    if SizeT(s.ip) >= |s.bytecode| then Halt(s)
    else
      SizeTBelow(s.ip, |s.bytecode|);
      var t := s.(ip := s.ip + 1);
      match Decode(s.bytecode[s.ip])
      case KeyOverflow => Fail(t, DispatchOverflow)
      case Unknown => Halt(t)
      case Handler(op) => Execute(op, t, elapsed)
  }

  /** The `while (is_running)` loop for at most `fuel` passes. `clock(n)` says
      whether the time since `run` started, in whole seconds, exceeds 2 when the
      pass numbered `n` (counting from `t`) runs. A set integrity flag makes
      the loop return without touching `is_running`. */
  function Run(s: State, fuel: nat, clock: nat -> bool, t: nat): State
    decreases fuel
  {
    if fuel == 0 || !s.isRunning then s
    else if s.integrityFailed then s
    else Run(Cycle(s, clock(t)), fuel - 1, clock, t + 1)
  }

  /** `run()`: sets `is_running` and enters the loop. The pointer is not reset. */
  function RunVm(s: State, fuel: nat, clock: nat -> bool): State
  {
    Run(s.(isRunning := true), fuel, clock, 0)
  }

  /** The loop runs a pass while it has fuel, is running and the flag is clear. */
  lemma RunUnfolds(s: State, fuel: nat, clock: nat -> bool, t: nat)
    requires fuel > 0 && s.isRunning && !s.integrityFailed
    ensures Run(s, fuel, clock, t) == Run(Cycle(s, clock(t)), fuel - 1, clock, t + 1)
  {
  }

  /** Otherwise it leaves the state as it is. */
  lemma RunStopped(s: State, fuel: nat, clock: nat -> bool, t: nat)
    requires fuel == 0 || !s.isRunning || s.integrityFailed
    ensures Run(s, fuel, clock, t) == s
  {
  }
}
