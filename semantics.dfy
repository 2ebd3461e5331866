/** The CHIP-8 instruction handlers of Chip8.cpp as transitions on a value
    of the machine state. Each function reads its operand fields from the
    current opcode, computes as the C++ body does (integer promotion, then
    conversion back to the unsigned width of the destination) and states in
    its contract what the handler means. */
module Semantics {
  import opened Constants
  import opened Bits

  /** The state the handlers read and write: the registers V0..VF, the
      program counter, the stack pointer and stack, the index register, the
      current opcode, and the two public buffers of the class. */
  datatype State = State(
    regs: seq<u8>,
    pc: u16,
    sp: nat,
    stack: seq<u16>,
    index: u16,
    opcode: u16,
    video: seq<u32>,
    keypad: seq<u8>)

  /** Fixed sizes of the buffers, and the stack pointer at most one past the
      top of the stack. */
  predicate Valid(s: State)
    ensures Valid(s) ==> |s.video| == VID_W * VID_H && |s.regs| == NUM_REGS
  {
    |s.regs| == NUM_REGS && |s.stack| == STACK_LEVELS && s.sp <= STACK_LEVELS &&
    |s.video| == FRAME_BUFF && |s.keypad| == NUM_KEYS
  }

  /** VF, the flag register. */
  const VF: nat := 0xF

  /** Conversion of an `int` to `uint8_t` / `uint16_t`: reduction modulo 2^8 / 2^16. */
  function Trunc8(v: int): (r: u8)
    ensures (v - r) % 0x100 == 0
    ensures 0 <= v < 0x100 ==> r == v
  {
    v % 0x100
  }

  function Trunc16(v: int): (r: u16)
    ensures (v - r) % 0x1_0000 == 0
    ensures 0 <= v < 0x1_0000 ==> r == v
  {
    v % 0x1_0000
  }

  /** `(opcode & 0x0F00) >> 8`: a register index, and also a key index. */
  function X(op: u16): (x: nat)
    ensures x < NUM_REGS && x < NUM_KEYS
  {
    (op / 0x100) % 0x10
  }

  /** `(opcode & 0x00F0) >> 4`: a register index, and also a key index. */
  function Y(op: u16): (y: nat)
    ensures y < NUM_REGS && y < NUM_KEYS
  {
    (op / 0x10) % 0x10
  }

  /** `opcode & 0x00FF`: the low byte, which with the high byte makes up the opcode. */
  function Kk(op: u16): (kk: u8)
    ensures op == 0x100 * (op / 0x100) + kk
  {
    op % 0x100
  }

  /** `opcode & 0x0FFF`: a 12-bit address, always inside memory. */
  function Nnn(op: u16): (a: nat)
    ensures a < MEM_SIZE && a < Pow2(12)
  {
    op % 0x1000
  }

  /** The program counter moved past the next instruction (`pc += 2` on a `uint16_t`). */
  function Skipped(pc: u16): (next: u16)
    ensures next == pc + 2 || (pc >= 0xFFFE && next == pc + 2 - 0x1_0000)
  {
    Trunc16(pc + 2)
  }

  /** 00E0 CLS: every cell of the frame buffer becomes 0; nothing else changes. */
  function Op00E0(s: State): (t: State)
    requires Valid(s)
    ensures Valid(t)
    ensures forall i :: 0 <= i < FRAME_BUFF ==> t.video[i] == 0
    ensures t == s.(video := t.video)
  {
    s.(video := seq(|s.video|, _ => 0))
  }

  /** 00EE RET: pops the return address stored by the matching CALL. */
  function Op00EE(s: State): (t: State)
    requires Valid(s) && s.sp >= 1
    ensures Valid(t)
    ensures t.sp == s.sp - 1 && t.pc == s.stack[t.sp]
    ensures t == s.(sp := t.sp, pc := t.pc)
  {
    var sp := s.sp - 1;
    s.(sp := sp, pc := s.stack[sp])
  }

  /** 1nnn JP: jumps to the 12-bit address in the opcode. */
  function Op1nnn(s: State): (t: State)
    requires Valid(s)
    ensures Valid(t)
    ensures t.pc < MEM_SIZE && t.pc == s.opcode % 0x1000
    ensures t == s.(pc := t.pc)
  {
    s.(pc := Nnn(s.opcode))
  }

  /** 2nnn CALL: pushes the current pc and jumps to the 12-bit address. */
  function Op2nnn(s: State): (t: State)
    requires Valid(s) && s.sp < STACK_LEVELS
    ensures Valid(t)
    ensures t.sp == s.sp + 1 && t.stack == s.stack[s.sp := s.pc]
    ensures t.pc < MEM_SIZE && t.pc == s.opcode % 0x1000
    ensures t == s.(stack := t.stack, sp := t.sp, pc := t.pc)
  {
    var addr := Nnn(s.opcode);
    s.(stack := s.stack[s.sp := s.pc], sp := s.sp + 1, pc := addr)
  }

  /** 3xkk SE Vx, byte: skips the next instruction when Vx equals kk. */
  function Op3xkk(s: State): (t: State)
    requires Valid(s)
    ensures Valid(t)
    ensures t.pc == if s.regs[X(s.opcode)] == s.opcode % 0x100 then (s.pc + 2) % 0x1_0000 else s.pc
    ensures t == s.(pc := t.pc)
  {
    if s.regs[X(s.opcode)] == Kk(s.opcode) then s.(pc := Skipped(s.pc)) else s
  }

  /** 4xkk SNE Vx, byte: skips the next instruction when Vx differs from kk. */
  function Op4xkk(s: State): (t: State)
    requires Valid(s)
    ensures Valid(t)
    ensures t.pc == if s.regs[X(s.opcode)] != s.opcode % 0x100 then (s.pc + 2) % 0x1_0000 else s.pc
    ensures t == s.(pc := t.pc)
  {
    if s.regs[X(s.opcode)] != Kk(s.opcode) then s.(pc := Skipped(s.pc)) else s
  }

  /** 5xy0 SE Vx, Vy: skips the next instruction when Vx equals Vy. */
  function Op5xy0(s: State): (t: State)
    requires Valid(s)
    ensures Valid(t)
    ensures t.pc == if s.regs[X(s.opcode)] == s.regs[Y(s.opcode)] then (s.pc + 2) % 0x1_0000 else s.pc
    ensures t == s.(pc := t.pc)
  {
    if s.regs[X(s.opcode)] == s.regs[Y(s.opcode)] then s.(pc := Skipped(s.pc)) else s
  }

  /** 9xy0 SNE Vx, Vy: skips the next instruction when Vx differs from Vy. */
  function Op9xy0(s: State): (t: State)
    requires Valid(s)
    ensures Valid(t)
    ensures t.pc == if s.regs[X(s.opcode)] != s.regs[Y(s.opcode)] then (s.pc + 2) % 0x1_0000 else s.pc
    ensures t == s.(pc := t.pc)
  {
    if s.regs[X(s.opcode)] != s.regs[Y(s.opcode)] then s.(pc := Skipped(s.pc)) else s
  }

  /** Vx is the only register that `s` and `t` may disagree on. */
  predicate OnlyVxChanged(s: State, t: State, x: nat)
    requires Valid(s) && Valid(t)
  {
    t == s.(regs := t.regs) &&
    forall i :: 0 <= i < NUM_REGS && i != x ==> t.regs[i] == s.regs[i]
  }

  /** Vx and VF are the only registers that `s` and `t` may disagree on. */
  predicate OnlyVxVfChanged(s: State, t: State, x: nat)
    requires Valid(s) && Valid(t)
  {
    t == s.(regs := t.regs) &&
    forall i :: 0 <= i < NUM_REGS && i != x && i != VF ==> t.regs[i] == s.regs[i]
  }

  /** 6xkk LD Vx, byte. */
  function Op6xkk(s: State): (t: State)
    requires Valid(s)
    ensures Valid(t)
    ensures t.regs[X(s.opcode)] == s.opcode % 0x100
    ensures OnlyVxChanged(s, t, X(s.opcode))
  {
    s.(regs := s.regs[X(s.opcode) := Kk(s.opcode)])
  }

  /** 7xkk ADD Vx, byte: 8-bit wrap-around, VF is not touched (unless x is F). */
  function Op7xkk(s: State): (t: State)
    requires Valid(s)
    ensures Valid(t)
    ensures var x := X(s.opcode);
      t.regs[x] == (s.regs[x] as int + s.opcode % 0x100) % 0x100 &&
      (t.regs[x] < s.regs[x] <==> s.regs[x] as int + s.opcode % 0x100 > 0xFF)
    ensures OnlyVxChanged(s, t, X(s.opcode))
  {
    var x := X(s.opcode);
    s.(regs := s.regs[x := Trunc8(s.regs[x] as int + Kk(s.opcode))])
  }

  /** 8xy0 LD Vx, Vy. */
  function Op8xy0(s: State): (t: State)
    requires Valid(s)
    ensures Valid(t)
    ensures t.regs[X(s.opcode)] == s.regs[Y(s.opcode)]
    ensures OnlyVxChanged(s, t, X(s.opcode))
  {
    s.(regs := s.regs[X(s.opcode) := s.regs[Y(s.opcode)]])
  }

  /** 8xy1 OR Vx, Vy: the new Vx is at least both operands. */
  function Op8xy1(s: State): (t: State)
    requires Valid(s)
    ensures Valid(t)
    ensures var x, y := X(s.opcode), Y(s.opcode);
      t.regs[x] == Or8(s.regs[x], s.regs[y]) &&
      s.regs[x] <= t.regs[x] && s.regs[y] <= t.regs[x]
    ensures OnlyVxChanged(s, t, X(s.opcode))
  {
    var x, y := X(s.opcode), Y(s.opcode);
    s.(regs := s.regs[x := Or8(s.regs[x], s.regs[y])])
  }

  /** 8xy2 AND Vx, Vy: the new Vx is at most both operands. */
  function Op8xy2(s: State): (t: State)
    requires Valid(s)
    ensures Valid(t)
    ensures var x, y := X(s.opcode), Y(s.opcode);
      t.regs[x] == And8(s.regs[x], s.regs[y]) &&
      t.regs[x] <= s.regs[x] && t.regs[x] <= s.regs[y]
    ensures OnlyVxChanged(s, t, X(s.opcode))
  {
    var x, y := X(s.opcode), Y(s.opcode);
    s.(regs := s.regs[x := And8(s.regs[x], s.regs[y])])
  }

  /** 8xy3 XOR Vx, Vy: XOR-ing Vy in again would give the old Vx back. */
  function Op8xy3(s: State): (t: State)
    requires Valid(s)
    ensures Valid(t)
    ensures var x, y := X(s.opcode), Y(s.opcode);
      t.regs[x] == Xor8(s.regs[x], s.regs[y]) &&
      Xor8(t.regs[x], s.regs[y]) == s.regs[x]
    ensures OnlyVxChanged(s, t, X(s.opcode))
  {
    var x, y := X(s.opcode), Y(s.opcode);
    s.(regs := s.regs[x := Xor8(s.regs[x], s.regs[y])])
  }

  /** 8xy4 ADD Vx, Vy. VF is written first, then Vx: for x other than F,
      VF is the carry and VF:Vx is the exact 9-bit sum; for x = F, VF ends
      up holding the low byte of the sum. */
  function Op8xy4(s: State): (t: State)
    requires Valid(s)
    ensures Valid(t)
    ensures var x, y := X(s.opcode), Y(s.opcode);
      t.regs[x] == (s.regs[x] as int + s.regs[y]) % 0x100 &&
      (x != VF ==> (t.regs[VF] == 1 <==> s.regs[x] as int + s.regs[y] > 0xFF) &&
                   0x100 * t.regs[VF] as int + t.regs[x] == s.regs[x] as int + s.regs[y])
    ensures OnlyVxVfChanged(s, t, X(s.opcode))
  {
    var x, y := X(s.opcode), Y(s.opcode);
    var sum := Trunc16(s.regs[x] as int + s.regs[y]);
    var flagged := s.regs[VF := if sum > 255 then 1 else 0];
    s.(regs := flagged[x := sum % 0x100])
  }

  /** 8xy5 SUB Vx, Vy. VF = 1 exactly when Vx > Vy (strictly), and Vx
      becomes Vx - Vy, borrowing 256 when Vy is larger; VF is written
      first, so for x = F it ends up holding the difference. */
  function Op8xy5(s: State): (t: State)
    requires Valid(s)
    ensures Valid(t)
    ensures var x, y := X(s.opcode), Y(s.opcode);
      t.regs[x] == s.regs[x] as int - s.regs[y] + (if s.regs[x] < s.regs[y] then 0x100 else 0) &&
      (x != VF ==> (t.regs[VF] == 1 <==> s.regs[x] > s.regs[y]) && t.regs[VF] <= 1)
    ensures OnlyVxVfChanged(s, t, X(s.opcode))
  {
    var x, y := X(s.opcode), Y(s.opcode);
    var diff := Trunc16(s.regs[x] as int - s.regs[y]);
    var flagged := s.regs[VF := if s.regs[x] > s.regs[y] then 1 else 0];
    s.(regs := flagged[x := diff % 0x100])
  }

  /** 8xy6 SHR Vx: VF receives the bit shifted out, Vx is halved; together
      they give back the old Vx. The shift re-reads Vx after VF is written,
      so for x = F the result is 0. */
  function Op8xy6(s: State): (t: State)
    requires Valid(s)
    ensures Valid(t)
    ensures var x := X(s.opcode);
      (x != VF ==> t.regs[VF] == s.regs[x] % 2 && t.regs[x] == s.regs[x] / 2 &&
                   2 * t.regs[x] as int + t.regs[VF] == s.regs[x]) &&
      (x == VF ==> t.regs[VF] == 0)
    ensures OnlyVxVfChanged(s, t, X(s.opcode))
  {
    var x := X(s.opcode);
    var flagged := s.regs[VF := s.regs[x] % 2];
    s.(regs := flagged[x := flagged[x] / 2])
  }

  /** 8xy7 SUBN Vx, Vy. VF = 1 exactly when Vy > Vx (strictly), and Vx
      becomes Vy - Vx, borrowing 256 when Vx is larger. */
  function Op8xy7(s: State): (t: State)
    requires Valid(s)
    ensures Valid(t)
    ensures var x, y := X(s.opcode), Y(s.opcode);
      t.regs[x] == s.regs[y] as int - s.regs[x] + (if s.regs[y] < s.regs[x] then 0x100 else 0) &&
      (x != VF ==> (t.regs[VF] == 1 <==> s.regs[y] > s.regs[x]) && t.regs[VF] <= 1)
    ensures OnlyVxVfChanged(s, t, X(s.opcode))
  {
    var x, y := X(s.opcode), Y(s.opcode);
    var diff := Trunc16(s.regs[y] as int - s.regs[x]);
    var flagged := s.regs[VF := if s.regs[y] > s.regs[x] then 1 else 0];
    s.(regs := flagged[x := diff % 0x100])
  }

  /** 8xyE SHL Vx: VF receives `Vx & 0x80` (0 or 128, not 0 or 1) and Vx is
      doubled modulo 256; no bit is lost, since twice the old Vx is the new
      Vx plus twice VF. The shift re-reads Vx after VF is written, so for
      x = F the result is 0. */
  function Op8xyE(s: State): (t: State)
    requires Valid(s)
    ensures Valid(t)
    ensures var x := X(s.opcode);
      (x != VF ==> (t.regs[VF] == 0x80 <==> s.regs[x] >= 0x80) &&
                   (t.regs[VF] == 0 <==> s.regs[x] < 0x80) &&
                   t.regs[x] as int + 2 * (t.regs[VF] as int) == 2 * (s.regs[x] as int)) &&
      (x == VF ==> t.regs[VF] == 0)
    ensures OnlyVxVfChanged(s, t, X(s.opcode))
  {
    var x := X(s.opcode);
    var flagged := s.regs[VF := (s.regs[x] as int / 0x80) * 0x80];
    s.(regs := flagged[x := Trunc8(flagged[x] as int * 2)])
  }

  /** Annn LD I, addr. The address is kept in a `uint8_t`, so only the low
      byte of nnn reaches the index register. */
  function OpAnnn(s: State): (t: State)
    requires Valid(s)
    ensures Valid(t)
    ensures t.index == Nnn(s.opcode) % 0x100 && t.index == s.opcode % 0x100 && t.index < 0x100
    ensures t == s.(index := t.index)
  {
    var addr := Trunc8(Nnn(s.opcode));
    s.(index := addr)
  }

  /** Bnnn JP V0, addr. The address is kept in a `uint8_t`, so pc becomes
      the low byte of nnn plus V0, below 0x1FF. */
  function OpBnnn(s: State): (t: State)
    requires Valid(s)
    ensures Valid(t)
    ensures t.pc == Nnn(s.opcode) % 0x100 + s.regs[0] as int && t.pc < 0x1FF
    ensures t == s.(pc := t.pc)
  {
    var addr := Trunc8(Nnn(s.opcode));
    s.(pc := Trunc16(addr as int + s.regs[0]))
  }
}
