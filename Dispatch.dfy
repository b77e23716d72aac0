/** The opcode set of `VM.h` and the obfuscated dispatch of `VM.cpp`: every
    fetched word is turned into the key `(word * 17 + 3) % 50`, and the key,
    not the word, selects the handler. */
module Dispatch {
  import opened Words

  /** `enum VMOpcodes`, in declaration order. */
  datatype Opcode =
    | Push | Pop | Add | Ret | CallExternal | Cmp
    | JumpIfEqual | Sub | PushJunk | Xor | Mutate
    | TimingCheck | ChecksumCheck
    | ChecksumPush | Rotl

  datatype Option<T> = None | Some(value: T)

  /** The value the enumeration gives each opcode. */
  function Code(op: Opcode): Int32
  {
    match op
    case Push => 0
    case Pop => 1
    case Add => 2
    case Ret => 3
    case CallExternal => 4
    case Cmp => 5
    case JumpIfEqual => 6
    case Sub => 7
    case PushJunk => 8
    case Xor => 9
    case Mutate => 10
    case TimingCheck => 11
    case ChecksumCheck => 12
    case ChecksumPush => 13
    case Rotl => 14
  }

  /** The opcode a word names, if it names one. */
  function FromCode(w: Int32): Option<Opcode>
  {
    if w == 0 then Some(Push)
    else if w == 1 then Some(Pop)
    else if w == 2 then Some(Add)
    else if w == 3 then Some(Ret)
    else if w == 4 then Some(CallExternal)
    else if w == 5 then Some(Cmp)
    else if w == 6 then Some(JumpIfEqual)
    else if w == 7 then Some(Sub)
    else if w == 8 then Some(PushJunk)
    else if w == 9 then Some(Xor)
    else if w == 10 then Some(Mutate)
    else if w == 11 then Some(TimingCheck)
    else if w == 12 then Some(ChecksumCheck)
    else if w == 13 then Some(ChecksumPush)
    else if w == 14 then Some(Rotl)
    else None
  }

  /** The opcodes are the consecutive values 0 to 14: every opcode has one
      code, and every word below 15 is the code of exactly one opcode. */
  lemma CodesConsecutive(op: Opcode, w: Int32)
    ensures 0 <= Code(op) < 15
    ensures FromCode(Code(op)) == Some(op)
    ensures FromCode(w).Some? <==> 0 <= w < 15
    ensures FromCode(w).Some? ==> Code(FromCode(w).value) == w
  {
  }

  /** `(opcode * 17 + 3) % 50` with C++'s `int` arithmetic: `None` when the
      multiplication or the addition overflows (undefined in C++), otherwise the
      truncating remainder, which is negative or zero for a negative word. */
  function DispatchKey(w: Int32): (k: Option<int>)
    ensures k.Some? <==> -126322567 <= w <= 126322567
    ensures k.Some? ==> -50 < k.value < 50 && (w < 0 ==> k.value <= 0)
  {
    var product := w * 17;
    if !InInt32(product) || !InInt32(product + 3) then None
    else Some(CRem(product + 3, 50))
  }

  /** The key `initialize_handlers` stores a handler under. */
  function HandlerKey(op: Opcode): int
  {
    CRem(Code(op) * 17 + 3, 50)
  }

  /** `opcode_handlers` after `initialize_handlers`: each opcode's handler
      under its key, the keys written out as the fifteen assignments compute
      them (`HandlerKeyValues` and `HandlerTableKeys` check them against
      `HandlerKey`). */
  function HandlerTable(): map<int, Opcode>
  {
    map[
      3 := Push,
      20 := Pop,
      37 := Add,
      4 := Ret,
      21 := CallExternal,
      38 := Cmp,
      5 := JumpIfEqual,
      22 := Sub,
      39 := PushJunk,
      6 := Xor,
      23 := Mutate,
      40 := TimingCheck,
      7 := ChecksumCheck,
      24 := ChecksumPush,
      41 := Rotl
    ]
  }

  /** What the loop does with a fetched word: run a handler, take the
      unknown-opcode path, or hit the overflow the key computation allows. */
  datatype Target = Handler(op: Opcode) | Unknown | KeyOverflow

  function Decode(w: Int32): Target
  {
    match DispatchKey(w)
    case None => KeyOverflow
    case Some(k) => if k in HandlerTable() then Handler(HandlerTable()[k]) else Unknown
  }

  /** The keys `initialize_handlers` computes: 3, 20, 37, 4, 21, 38, 5, 22,
      39, 6, 23, 40, 7, 24, 41 in declaration order. */
  lemma HandlerKeyValues()
    ensures HandlerKey(Push) == 3 && HandlerKey(Pop) == 20 && HandlerKey(Add) == 37
    ensures HandlerKey(Ret) == 4 && HandlerKey(CallExternal) == 21 && HandlerKey(Cmp) == 38
    ensures HandlerKey(JumpIfEqual) == 5 && HandlerKey(Sub) == 22 && HandlerKey(PushJunk) == 39
    ensures HandlerKey(Xor) == 6 && HandlerKey(Mutate) == 23 && HandlerKey(TimingCheck) == 40
    ensures HandlerKey(ChecksumCheck) == 7 && HandlerKey(ChecksumPush) == 24 && HandlerKey(Rotl) == 41
  {
  }

  /** The table holds each opcode's handler under the key `HandlerKey`
      computes for it, and nothing else; since the fifteen keys are pairwise
      distinct, no assignment in `initialize_handlers` overwrites another. */
  lemma HandlerTableKeys(op: Opcode, k: int)
    ensures HandlerKey(op) in HandlerTable() && HandlerTable()[HandlerKey(op)] == op
    ensures k in HandlerTable() <==> exists o :: HandlerKey(o) == k
    ensures k in HandlerTable() ==> HandlerKey(HandlerTable()[k]) == k
  {
    HandlerKeyValues();
    if k in HandlerTable() {
      assert HandlerKey(HandlerTable()[k]) == k;
    }
  }

  /** Each defined opcode reaches exactly its own handler. */
  lemma DecodeCode(op: Opcode)
    ensures Decode(Code(op)) == Handler(op)
  {
    assert DispatchKey(Code(op)) == Some(HandlerKey(op));
    HandlerTableKeys(op, HandlerKey(op));
  }

  /** Negative words never reach a handler: their key is zero or negative and
      no handler sits there. */
  lemma DecodeNegative(w: Int32)
    requires w < 0
    ensures !Decode(w).Handler?
  {
  }

  /** Words outside 0..14 may alias a defined key: 50 runs the `push` handler
      and 64 the `rotl` handler. */
  lemma DecodeAlias()
    ensures Decode(50) == Handler(Push)
    ensures Decode(64) == Handler(Rotl)
  {
    assert DispatchKey(50) == Some(3);
    assert DispatchKey(64) == Some(41);
  }

  /** 17 is invertible modulo 50 (17 * 3 = 51), so two residues with the same
      key are equal. */
  lemma SameKeySameResidue(r: int, c: int)
    requires 0 <= r < 50 && 0 <= c < 50 && (r * 17 + 3) % 50 == (c * 17 + 3) % 50
    ensures r == c
  {
    var k, a, b := (r * 17 + 3) % 50, (r * 17 + 3) / 50, (c * 17 + 3) / 50;
    assert r * 17 + 3 == 50 * a + k;
    assert c * 17 + 3 == 50 * b + k;
    var d := a - b;
    assert 17 * (r - c) == 50 * d;
    var m := 3 * d - (r - c);
    assert r - c == 50 * m;
  }

  /** The remainder of `50 * y + k` by 50 is `k` when `0 <= k < 50`. */
  lemma RemainderUnique(x: int, y: int, k: int)
    requires x == 50 * y + k && 0 <= k < 50
    ensures x % 50 == k
  {
    var d, r := x / 50, x % 50;
    assert x == 50 * d + r;
    assert 50 * (d - y) == k - r;
  }

  /** The key of a non-negative word is the key of its residue modulo 50. */
  lemma KeyOfResidue(w: Int32)
    requires 0 <= w <= 126322567
    ensures DispatchKey(w) == Some(((w % 50) * 17 + 3) % 50)
  {
    var q, r := w / 50, w % 50;
    assert w == 50 * q + r;
    var k, a := (r * 17 + 3) % 50, (r * 17 + 3) / 50;
    assert r * 17 + 3 == 50 * a + k;
    assert w * 17 + 3 == 50 * (17 * q + a) + k;
    RemainderUnique(w * 17 + 3, 17 * q + a, k);
  }

  /** A residue of 15 or more has no handler under its key. */
  lemma ResidueWithoutHandler(r: int)
    requires 15 <= r < 50
    ensures (r * 17 + 3) % 50 !in HandlerTable()
  {
    var k := (r * 17 + 3) % 50;
    if k in HandlerTable() {
      var o := HandlerTable()[k];
      HandlerTableKeys(o, k);
      CodesConsecutive(o, r);
      SameKeySameResidue(r, Code(o));
    }
  }

  /** The key of a non-negative word depends only on the word modulo 50, so
      such a word runs the handler of opcode `w % 50` when that is below 15,
      and reaches no handler otherwise. */
  lemma DecodePeriodic(w: Int32)
    requires 0 <= w <= 126322567
    ensures Decode(w).Handler? <==> w % 50 < 15
    ensures w % 50 < 15 ==> Decode(w) == Decode(w % 50)
  {
    var r := w % 50;
    KeyOfResidue(w);
    KeyOfResidue(r);
    assert Decode(w) == Decode(r);
    if r < 15 {
      var op := FromCode(r).value;
      CodesConsecutive(op, r);
      DecodeCode(op);
    } else {
      ResidueWithoutHandler(r);
    }
  }
}
