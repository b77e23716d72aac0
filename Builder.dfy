/** The host side of `main.cpp`: `calculate_checksum`, the failure ID derived
    from the success ID, and the bytecode builder with its `add_instruction`
    helper and the patches it applies once every address is known. */
module Builder {
  import opened Words
  import opened Dispatch
  import opened Machine

  /** The mask `main` XORs into the success ID to get the failure ID. */
  const FailureMask: Int32 := 0x5A5A_5A5A

  /** `authSuccessId ^ 0x5A5A5A5A`. */
  function FailureId(successId: Int32): Int32
  {
    Words.Xor(successId, FailureMask)
  }

  /** The two IDs are always different, so registering the failure callback
      never replaces the success callback; and the mask is its own inverse. */
  lemma FailureIdDiffers(successId: Int32)
    ensures FailureId(successId) != successId
    ensures FailureId(FailureId(successId)) == successId
  {
    XorCancel(successId, FailureMask);
  }

  /** `calculate_checksum`: `std::accumulate` of `std::bit_xor<int>` from 0,
      the same fold the checksum opcodes compute (`HostChecksumMatches`). */
  function CalculateChecksum(data: seq<Int32>): Int32
  {
    XorFold(data)
  }

  /** `add_instruction`: appends `instr` and then a `mutate` whose operands
      are the instruction's address and `push_junk`, so that once the
      instruction has run its opcode word is overwritten. */
  function AddInstruction(code: seq<Int32>, instr: seq<Int32>): (r: seq<Int32>)
    requires |code| <= MaxInt32
    ensures |r| == |code| + |instr| + 3
    ensures r[..|code|] == code && r[|code|..|code| + |instr|] == instr
    ensures r[|code| + |instr|..] == [Code(Mutate), |code|, Code(PushJunk)]
  {
    code + instr + [Code(Mutate), |code|, Code(PushJunk)]
  }

  /** Running the trailer `add_instruction` appends, from the word after its
      `mutate` opcode, overwrites the first word of the instruction with
      `push_junk` and moves past the trailer. */
  lemma TrailerNeutralises(code: seq<Int32>, instr: seq<Int32>, s: State)
    requires |code| <= MaxInt32
    requires |AddInstruction(code, instr)| <= |s.bytecode|
    requires s.bytecode[..|code| + |instr| + 3] == AddInstruction(code, instr)
    requires s.ip == |code| + |instr| + 1
    ensures ExecMutate(s) == s.(bytecode := s.bytecode[|code| := Code(PushJunk)], ip := s.ip + 2)
  {
    var n := |code| + |instr|;
    assert s.bytecode[n + 1] == AddInstruction(code, instr)[n + 1] == |code|;
    assert s.bytecode[n + 2] == AddInstruction(code, instr)[n + 2] == Code(PushJunk);
  }

  // ----- the program the builder produces -----

  /** Where the critical section starts, and how long it is. */
  const CriticalStart: Int32 := 12
  const CriticalLength: Int32 := 30

  /** The instructions whose words both `checksum_push` opcodes hash, with
      every operand patched: the two checksums, `xor`, `rotl 5`, `cmp` and the
      branch to the success block at 58, each followed by its trailer. */
  function CriticalSection(): (c: seq<Int32>)
    ensures |c| == CriticalLength
  {
    [13, 12, 30,   10, 12, 8,   // checksum_push 12 30
     13, 19, 15,   10, 18, 8,   // checksum_push 19 15
     9,            10, 24, 8,   // xor
     14, 5,        10, 28, 8,   // rotl 5
     5,            10, 33, 8,   // cmp
     6, 58,        10, 37, 8]   // jump_if_equal 58
  }

  /** The window the second `checksum_push` hashes: a quarter of the section
      in, half of it long. */
  const SubOffset: Int32 := 7
  const SubLength: Int32 := 15

  /** The key a program derives from the words `c` of its critical section:
      `rotl(C1 ^ C2, 5)`, where C1 folds the whole section and C2 its middle
      window. */
  function DerivedKey(c: seq<Int32>): Int32
    requires |c| == CriticalLength
  {
    RotateLeft(Words.Xor(XorFold(c), XorFold(c[SubOffset..SubOffset + SubLength])), 5)
  }

  /** The key the built program accepts. It takes no argument: it depends
      neither on the user input nor on the random IDs. */
  function AuthKey(): Int32
  {
    DerivedKey(CriticalSection())
  }

  /** The expected value `main` stores in the `checksum_check`. */
  function ExpectedChecksum(): Int32
  {
    CalculateChecksum(CriticalSection())
  }

  /** The words before the critical section: `push U` and the
      `checksum_check` over the section, each with its trailer. */
  function Prologue(userInput: Int32, expected: Int32): (p: seq<Int32>)
    ensures |p| == CriticalStart
  {
    [0, userInput,        10, 0, 8,     // push U
     12, 12, 30, expected,
                          10, 5, 8]     // checksum_check 12 30 expected
  }

  /** The block at 42 the branch falls through to. */
  function FailureBranch(successId: Int32, failureId: Int32): (b: seq<Int32>)
    ensures |b| == 16
  {
    [4, failureId,        10, 42, 8,    // call_external F
     10, 43, successId,   10, 47, 8,    // mutate 43 S
     11,                  10, 53, 8,    // timing_check
     3]                                 // ret
  }

  /** The block at 58 the branch jumps to. */
  function SuccessBranch(successId: Int32, failureId: Int32): (b: seq<Int32>)
    ensures |b| == 16
  {
    [4, successId,        10, 58, 8,    // call_external S
     10, 59, failureId,   10, 63, 8,    // mutate 59 F
     11,                  10, 69, 8,    // timing_check
     3]                                 // ret
  }

  /** The bytecode `main` loads, written out block by block, for a given
      expected checksum. */
  function Layout(userInput: Int32, successId: Int32, failureId: Int32, expected: Int32): (code: seq<Int32>)
    ensures |code| == 74
  {
    Prologue(userInput, expected) + CriticalSection() + (FailureBranch(successId, failureId) + SuccessBranch(successId, failureId))
  }

  /** Overwriting a word of the first block of `p + c + b` overwrites it
      in that block. */
  lemma PatchFront(p: seq<Int32>, c: seq<Int32>, b: seq<Int32>, j: int, v: Int32)
    requires 0 <= j < |p|
    ensures (p + c + b)[j := v] == p[j := v] + c + b
  {
    assert (p + c + b)[j := v] == p[j := v] + c + b;
  }

  /** The same for the middle block. */
  lemma PatchMiddle(p: seq<Int32>, c: seq<Int32>, b: seq<Int32>, j: int, v: Int32)
    requires |p| <= j < |p| + |c|
    ensures (p + c + b)[j := v] == p + c[j - |p| := v] + b
  {
    assert (p + c + b)[j := v] == p + c[j - |p| := v] + b;
  }

  // ----- the builder -----

  /** `main.cpp` lines 32 to 54: `push U` and the `checksum_check` whose
      operands are patched later, each with its trailer. */
  method EmitPrologue(userInput: Int32) returns (code: seq<Int32>, checksumCheckAddr: Int32)
    ensures code == UnpatchedPrologue(userInput)
    ensures checksumCheckAddr == 5
  {
    code := [];
    code := AddInstruction(code, [Code(Push), userInput]);
    checksumCheckAddr := |code|;
    code := code + [Code(ChecksumCheck), 0, 0, 0];
    code := code + [Code(Mutate), checksumCheckAddr, Code(PushJunk)];
  }

  /** Lines 56 to 83: the critical section with its operands still zero. */
  method EmitCriticalSection(prefix: seq<Int32>) returns (code: seq<Int32>, c1Addr: Int32, c2Addr: Int32, jumpAddr: Int32)
    requires |prefix| == 12
    ensures code == prefix + UnpatchedCriticalSection()
    ensures c1Addr == 12 && c2Addr == 18 && jumpAddr == 37
  {
    code := prefix;
    c1Addr := |code|;
    code := code + [Code(ChecksumPush), 0, 0];
    code := code + [Code(Mutate), c1Addr, Code(PushJunk)];

    c2Addr := |code|;
    code := code + [Code(ChecksumPush), 0, 0];
    code := code + [Code(Mutate), c2Addr, Code(PushJunk)];

    code := AddInstruction(code, [Code(Xor)]);
    code := AddInstruction(code, [Code(Rotl), 5]);
    code := AddInstruction(code, [Code(Cmp)]);
    jumpAddr := |code|;
    code := AddInstruction(code, [Code(JumpIfEqual), 0]);
  }

  /** Lines 85 to 93: the failure branch. */
  method EmitFailureBranch(prefix: seq<Int32>, successId: Int32, failureId: Int32) returns (code: seq<Int32>)
    requires |prefix| == 42
    ensures code == prefix + FailureBranch(successId, failureId)
  {
    code := prefix;
    var callFailAddr := |code|;
    code := AddInstruction(code, [Code(CallExternal), failureId]);
    code := AddInstruction(code, [Code(Mutate), callFailAddr + 1, successId]);
    code := AddInstruction(code, [Code(TimingCheck)]);
    code := code + [Code(Ret)];
  }

  /** Lines 95 to 102: the success branch. */
  method EmitSuccessBranch(prefix: seq<Int32>, successId: Int32, failureId: Int32) returns (code: seq<Int32>, successAddr: Int32)
    requires |prefix| == 58
    ensures code == prefix + SuccessBranch(successId, failureId)
    ensures successAddr == 58
  {
    code := prefix;
    successAddr := |code|;
    var callSuccAddr := |code|;
    code := AddInstruction(code, [Code(CallExternal), successId]);
    code := AddInstruction(code, [Code(Mutate), callSuccAddr + 1, failureId]);
    code := AddInstruction(code, [Code(TimingCheck)]);
    code := code + [Code(Ret)];
  }

  /** The prologue as emitted, with the `checksum_check` operands still zero. */
  function UnpatchedPrologue(userInput: Int32): seq<Int32>
  {
    [0, userInput, 10, 0, 8, 12, 0, 0, 0, 10, 5, 8]
  }

  /** The critical section as emitted, with the five operands the builder
      patches still zero. */
  function UnpatchedCriticalSection(): seq<Int32>
  {
    [13, 0, 0, 10, 12, 8, 13, 0, 0, 10, 18, 8, 9, 10, 24, 8,
     14, 5, 10, 28, 8, 5, 10, 33, 8, 6, 0, 10, 37, 8]
  }

  /** Lines 104 to 119: the jump target becomes the success branch, C1 covers
      the whole section and C2 its middle half. The section is the only block
      these patches touch. */
  method PatchCriticalSection(code: seq<Int32>, ghost p: seq<Int32>, ghost b: seq<Int32>,
                              jumpAddr: Int32, successAddr: Int32, c1Addr: Int32, c2Addr: Int32,
                              criticalStart: Int32, criticalLength: Int32)
    returns (patched: seq<Int32>)
    requires |p| == 12 && code == p + UnpatchedCriticalSection() + b
    requires jumpAddr == 37 && successAddr == 58 && c1Addr == 12 && c2Addr == 18
    requires criticalStart == 12 && criticalLength == 30
    ensures patched == p + CriticalSection() + b
  {
    ghost var c := UnpatchedCriticalSection();
    patched := code;

    PatchMiddle(p, c, b, jumpAddr + 1, successAddr);
    patched := patched[jumpAddr + 1 := successAddr];
    c := c[jumpAddr + 1 - 12 := successAddr];

    PatchMiddle(p, c, b, c1Addr + 1, criticalStart);
    patched := patched[c1Addr + 1 := criticalStart];
    c := c[c1Addr + 1 - 12 := criticalStart];
    PatchMiddle(p, c, b, c1Addr + 2, criticalLength);
    patched := patched[c1Addr + 2 := criticalLength];
    c := c[c1Addr + 2 - 12 := criticalLength];

    var subOff := criticalLength / 4;
    var subLen := criticalLength / 2;
    if subLen <= 0 {
      subOff := 0;
      subLen := criticalLength;
    }
    PatchMiddle(p, c, b, c2Addr + 1, criticalStart + subOff);
    patched := patched[c2Addr + 1 := criticalStart + subOff];
    c := c[c2Addr + 1 - 12 := criticalStart + subOff];
    PatchMiddle(p, c, b, c2Addr + 2, subLen);
    patched := patched[c2Addr + 2 := subLen];
    c := c[c2Addr + 2 - 12 := subLen];
    CriticalSectionPatched();
  }

  /** Patching the jump target and the two `checksum_push` ranges gives the
      critical section. */
  lemma CriticalSectionPatched()
    ensures UnpatchedCriticalSection()[26 := 58][1 := 12][2 := 30][7 := 19][8 := 15] == CriticalSection()
  {
  }

  /** Lines 121 to 127: the `checksum_check` covers the section, and its
      expected value is `calculate_checksum` of the section as it now stands. */
  method PatchChecksumCheck(code: seq<Int32>, ghost userInput: Int32, ghost c: seq<Int32>, ghost b: seq<Int32>,
                            checksumCheckAddr: Int32, criticalStart: Int32, criticalLength: Int32)
    returns (patched: seq<Int32>)
    requires |c| == 30 && code == UnpatchedPrologue(userInput) + c + b
    requires checksumCheckAddr == 5 && criticalStart == 12 && criticalLength == 30
    ensures patched == Prologue(userInput, CalculateChecksum(c)) + c + b
  {
    ghost var p := UnpatchedPrologue(userInput);
    assert code[criticalStart..criticalStart + criticalLength] == c;
    var expected := CalculateChecksum(code[criticalStart..criticalStart + criticalLength]);
    patched := code;
    PatchFront(p, c, b, checksumCheckAddr + 1, criticalStart);
    patched := patched[checksumCheckAddr + 1 := criticalStart];
    p := p[checksumCheckAddr + 1 := criticalStart];
    PatchFront(p, c, b, checksumCheckAddr + 2, criticalLength);
    patched := patched[checksumCheckAddr + 2 := criticalLength];
    p := p[checksumCheckAddr + 2 := criticalLength];
    PatchFront(p, c, b, checksumCheckAddr + 3, expected);
    patched := patched[checksumCheckAddr + 3 := expected];
    p := p[checksumCheckAddr + 3 := expected];
    assert p == Prologue(userInput, expected);
  }

  /** Lines 32 to 127 of `main`: emit the blocks, then patch the operands
      once every address is known. The result is the layout whose expected
      checksum is the fold of its own critical section. */
  method Build(userInput: Int32, successId: Int32, failureId: Int32) returns (bytecode: seq<Int32>)
    ensures |bytecode| == 74
    ensures bytecode == Layout(userInput, successId, failureId, CalculateChecksum(bytecode[CriticalStart..CriticalStart + CriticalLength]))
  {
    var code, checksumCheckAddr := EmitPrologue(userInput);
    ghost var p := code;
    var criticalStart := |code|;
    var c1Addr, c2Addr, jumpAddr;
    code, c1Addr, c2Addr, jumpAddr := EmitCriticalSection(code);
    var criticalLength := |code| - criticalStart;
    code := EmitFailureBranch(code, successId, failureId);
    var successAddr;
    code, successAddr := EmitSuccessBranch(code, successId, failureId);
    ghost var b := FailureBranch(successId, failureId) + SuccessBranch(successId, failureId);
    assert code == p + UnpatchedCriticalSection() + b;

    code := PatchCriticalSection(code, p, b, jumpAddr, successAddr, c1Addr, c2Addr, criticalStart, criticalLength);
    code := PatchChecksumCheck(code, userInput, CriticalSection(), b, checksumCheckAddr, criticalStart, criticalLength);
    bytecode := code;
    assert bytecode[CriticalStart..CriticalStart + CriticalLength] == CriticalSection();
  }

  // ----- what the layout guarantees -----

  /** The four blocks of the program sit at 0, 12, 42 and 58. */
  lemma LayoutBlocks(userInput: Int32, successId: Int32, failureId: Int32, expected: Int32)
    ensures var code := Layout(userInput, successId, failureId, expected);
      code[..12] == Prologue(userInput, expected) && code[12..42] == CriticalSection() &&
      code[42..58] == FailureBranch(successId, failureId) && code[58..] == SuccessBranch(successId, failureId)
  ensures var code := Layout(userInput, successId, failureId, expected);
      |code| == 74 && code[73] == Code(Ret)
  {
    var code := Layout(userInput, successId, failureId, expected);
    var p, c, f, s := Prologue(userInput, expected), CriticalSection(), FailureBranch(successId, failureId), SuccessBranch(successId, failureId);
    assert code == p + c + (f + s);
    assert code[..12] == p;
    assert code[12..42] == c;
    assert code[42..58] == f;
    assert code[58..] == s;
    assert code[73] == s[15];
  }

  /** The `checksum_check` at 5 covers the critical section, and the
      expected value the host computed with `calculate_checksum` is exactly
      what the interpreter computes over the range its operands name. */
  lemma HostChecksumMatches(userInput: Int32, successId: Int32, failureId: Int32, expected: Int32)
    requires expected == CalculateChecksum(Layout(userInput, successId, failureId, expected)[CriticalStart..CriticalStart + CriticalLength])
    ensures var code := Layout(userInput, successId, failureId, expected);
      code[5] == Code(ChecksumCheck) && code[6] == CriticalStart && code[7] == CriticalLength &&
      RangeInside(code, code[6], code[7]) && Checksum(code, code[6], code[7]) == code[8]
  {
    var code := Layout(userInput, successId, failureId, expected);
    var p := Prologue(userInput, expected);
    assert code[..12] == p;
    assert code[5] == p[5] && code[6] == p[6] && code[7] == p[7] && code[8] == p[8];
  }

  /** That value does not depend on the input or the IDs: it is the fold of
      the fixed critical section. */
  lemma ExpectedIsFixed(userInput: Int32, successId: Int32, failureId: Int32, expected: Int32)
    requires expected == CalculateChecksum(Layout(userInput, successId, failureId, expected)[CriticalStart..CriticalStart + CriticalLength])
    ensures expected == ExpectedChecksum()
  {
    LayoutBlocks(userInput, successId, failureId, expected);
  }

  /** The two `checksum_push` ranges: the whole critical section, and the
      window of half its length starting a quarter of the way in. */
  lemma ChecksumWindows(userInput: Int32, successId: Int32, failureId: Int32, expected: Int32)
    ensures var code := Layout(userInput, successId, failureId, expected);
      code[12] == code[18] == Code(ChecksumPush) &&
      code[13] == CriticalStart && code[14] == CriticalLength &&
      code[19] == CriticalStart + CriticalLength / 4 && code[20] == CriticalLength / 2 &&
      code[19..19 + code[20]] == code[CriticalStart..CriticalStart + CriticalLength][SubOffset..SubOffset + SubLength]
  ensures var code := Layout(userInput, successId, failureId, expected);
      RangeInside(code, code[13], code[14]) && RangeInside(code, code[19], code[20])
  {
    var code := Layout(userInput, successId, failureId, expected);
    LayoutBlocks(userInput, successId, failureId, expected);
    assert code[19..34] == code[12..42][7..22];
  }

  /** The key the program computes from its own section is `AuthKey()`. */
  lemma LayoutKey(userInput: Int32, successId: Int32, failureId: Int32, expected: Int32)
    ensures DerivedKey(Layout(userInput, successId, failureId, expected)[CriticalStart..CriticalStart + CriticalLength]) == AuthKey()
  {
    LayoutBlocks(userInput, successId, failureId, expected);
  }
}
