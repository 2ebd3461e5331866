/** The `Chip8` class of Chip8.hpp with the instruction handlers of
    Chip8.cpp as methods that update its fields and arrays in place. Each
    handler is proved to leave the machine in the state that the matching
    function of `Semantics` computes from the old state, whose meaning is
    stated and proved there. */
module Machine {
  import opened Constants
  import Bits
  import opened Semantics

  class Chip8 {
    var regs: array<u8>
    var stack: array<u16>
    var video: array<u32>
    var keypad: array<u8>
    var pc: u16
    var sp: nat
    var index: u16
    var opcode: u16

    /** The arrays have their fixed sizes and sp stays within the stack. */
    ghost predicate Valid()
      reads this
      ensures Valid() ==> video.Length == VID_W * VID_H && keypad.Length == NUM_KEYS
    {
      regs.Length == NUM_REGS && stack.Length == STACK_LEVELS && sp <= STACK_LEVELS &&
      video.Length == FRAME_BUFF && keypad.Length == NUM_KEYS && regs != keypad
    }

    /** The whole machine state as a value. */
    ghost function Snapshot(): (s: State)
      reads this, regs, stack, video, keypad
      requires Valid()
      ensures Semantics.Valid(s)
    {
      State(regs[..], pc, sp, stack[..], index, opcode, video[..], keypad[..])
    }

    /** The keypad and the frame buffer are value-initialised to zeros. The
        source gives the constructor no body, so nothing is promised about
        the other fields beyond their sizes. */
    constructor ()
      ensures Valid()
      ensures fresh(regs) && fresh(stack) && fresh(video) && fresh(keypad)
      ensures forall k :: 0 <= k < NUM_KEYS ==> keypad[k] == 0
      ensures forall i :: 0 <= i < FRAME_BUFF ==> video[i] == 0
    {
      regs := new u8[NUM_REGS](_ => 0);
      stack := new u16[STACK_LEVELS](_ => 0);
      video := new u32[FRAME_BUFF](_ => 0);
      keypad := new u8[NUM_KEYS](_ => 0);
      pc, sp, index, opcode := 0, 0, 0, 0;
    }

    /** 00E0 CLS: clears the frame buffer cell by cell. */
    method Op00E0()
      requires Valid()
      modifies video
      ensures Valid()
      ensures forall i :: 0 <= i < video.Length ==> video[i] == 0
      ensures Snapshot() == Semantics.Op00E0(old(Snapshot()))
    {
      for i := 0 to video.Length
        invariant forall k :: 0 <= k < i ==> video[k] == 0
      {
        video[i] := 0;
      }
    }

    /** 00EE RET. The source does not check for an empty stack. */
    method Op00EE()
      requires Valid() && sp >= 1
      modifies this`sp, this`pc
      ensures Valid()
      ensures Snapshot() == Semantics.Op00EE(old(Snapshot()))
    {
      sp := sp - 1;
      pc := stack[sp];
    }

    /** 1nnn JP addr. */
    method Op1nnn()
      requires Valid()
      modifies this`pc
      ensures Valid()
      ensures Snapshot() == Semantics.Op1nnn(old(Snapshot()))
    {
      var addr: u16 := opcode % 0x1000;
      pc := addr;
    }

    /** 2nnn CALL addr. The source does not check for a full stack. */
    method Op2nnn()
      requires Valid() && sp < STACK_LEVELS
      modifies stack, this`sp, this`pc
      ensures Valid()
      ensures Snapshot() == Semantics.Op2nnn(old(Snapshot()))
    {
      var addr: u16 := opcode % 0x1000;
      stack[sp] := pc;
      sp := sp + 1;
      pc := addr;
    }

    /** 3xkk SE Vx, byte. */
    method Op3xkk()
      requires Valid()
      modifies this`pc
      ensures Valid()
      ensures Snapshot() == Semantics.Op3xkk(old(Snapshot()))
    {
      var x := X(opcode);
      var byte := Kk(opcode);
      if regs[x] == byte {
        pc := Trunc16(pc + 2);
      }
    }

    /** 4xkk SNE Vx, byte. */
    method Op4xkk()
      requires Valid()
      modifies this`pc
      ensures Valid()
      ensures Snapshot() == Semantics.Op4xkk(old(Snapshot()))
    {
      var x := X(opcode);
      var byte := Kk(opcode);
      if regs[x] != byte {
        pc := Trunc16(pc + 2);
      }
    }

    /** 5xy0 SE Vx, Vy. */
    method Op5xy0()
      requires Valid()
      modifies this`pc
      ensures Valid()
      ensures Snapshot() == Semantics.Op5xy0(old(Snapshot()))
    {
      var x, y := X(opcode), Y(opcode);
      if regs[x] == regs[y] {
        pc := Trunc16(pc + 2);
      }
    }

    /** 6xkk LD Vx, byte. */
    method Op6xkk()
      requires Valid()
      modifies regs
      ensures Valid()
      ensures Snapshot() == Semantics.Op6xkk(old(Snapshot()))
    {
      var x := X(opcode);
      regs[x] := Kk(opcode);
    }

    /** 7xkk ADD Vx, byte. */
    method Op7xkk()
      requires Valid()
      modifies regs
      ensures Valid()
      ensures Snapshot() == Semantics.Op7xkk(old(Snapshot()))
    {
      var x := X(opcode);
      regs[x] := Trunc8(regs[x] as int + Kk(opcode));
    }

    /** 8xy0 LD Vx, Vy. */
    method Op8xy0()
      requires Valid()
      modifies regs
      ensures Valid()
      ensures Snapshot() == Semantics.Op8xy0(old(Snapshot()))
    {
      var x, y := X(opcode), Y(opcode);
      regs[x] := regs[y];
    }

    /** 8xy1 OR Vx, Vy. */
    method Op8xy1()
      requires Valid()
      modifies regs
      ensures Valid()
      ensures Snapshot() == Semantics.Op8xy1(old(Snapshot()))
    {
      var x, y := X(opcode), Y(opcode);
      regs[x] := Bits.Or8(regs[x], regs[y]);
    }

    /** 8xy2 AND Vx, Vy. */
    method Op8xy2()
      requires Valid()
      modifies regs
      ensures Valid()
      ensures Snapshot() == Semantics.Op8xy2(old(Snapshot()))
    {
      var x, y := X(opcode), Y(opcode);
      regs[x] := Bits.And8(regs[x], regs[y]);
    }

    /** 8xy3 XOR Vx, Vy. */
    method Op8xy3()
      requires Valid()
      modifies regs
      ensures Valid()
      ensures Snapshot() == Semantics.Op8xy3(old(Snapshot()))
    {
      var x, y := X(opcode), Y(opcode);
      regs[x] := Bits.Xor8(regs[x], regs[y]);
    }

    /** 8xy4 ADD Vx, Vy: the carry goes to VF before the sum goes to Vx. */
    method Op8xy4()
      requires Valid()
      modifies regs
      ensures Valid()
      ensures Snapshot() == Semantics.Op8xy4(old(Snapshot()))
    {
      var x, y := X(opcode), Y(opcode);
      var sum: u16 := Trunc16(regs[x] as int + regs[y]);
      if sum > 255 {
        regs[VF] := 1;
      } else {
        regs[VF] := 0;
      }
      regs[x] := sum % 0x100;
    }

    /** 8xy5 SUB Vx, Vy: the flag goes to VF before the difference goes to Vx. */
    method Op8xy5()
      requires Valid()
      modifies regs
      ensures Valid()
      ensures Snapshot() == Semantics.Op8xy5(old(Snapshot()))
    {
      var x, y := X(opcode), Y(opcode);
      var diff: u16 := Trunc16(regs[x] as int - regs[y]);
      if regs[x] > regs[y] {
        regs[VF] := 1;
      } else {
        regs[VF] := 0;
      }
      regs[x] := diff % 0x100;
    }

    /** 8xy6 SHR Vx: the low bit goes to VF, then Vx (re-read) is shifted. */
    method Op8xy6()
      requires Valid()
      modifies regs
      ensures Valid()
      ensures Snapshot() == Semantics.Op8xy6(old(Snapshot()))
    {
      var x := X(opcode);
      regs[VF] := regs[x] % 2;
      regs[x] := regs[x] / 2;
    }

    /** 8xy7 SUBN Vx, Vy: the flag goes to VF before the difference goes to Vx. */
    method Op8xy7()
      requires Valid()
      modifies regs
      ensures Valid()
      ensures Snapshot() == Semantics.Op8xy7(old(Snapshot()))
    {
      var x, y := X(opcode), Y(opcode);
      var diff: u16 := Trunc16(regs[y] as int - regs[x]);
      if regs[y] > regs[x] {
        regs[VF] := 1;
      } else {
        regs[VF] := 0;
      }
      regs[x] := diff % 0x100;
    }

    /** 8xyE SHL Vx: bit 7 (in place, 0 or 0x80) goes to VF, then Vx
        (re-read) is shifted left within 8 bits. */
    method Op8xyE()
      requires Valid()
      modifies regs
      ensures Valid()
      ensures Snapshot() == Semantics.Op8xyE(old(Snapshot()))
    {
      var x := X(opcode);
      regs[VF] := (regs[x] as int / 0x80) * 0x80;
      regs[x] := Trunc8(regs[x] as int * 2);
    }

    /** 9xy0 SNE Vx, Vy. */
    method Op9xy0()
      requires Valid()
      modifies this`pc
      ensures Valid()
      ensures Snapshot() == Semantics.Op9xy0(old(Snapshot()))
    {
      var x, y := X(opcode), Y(opcode);
      if regs[x] != regs[y] {
        pc := Trunc16(pc + 2);
      }
    }

    /** Annn LD I, addr: the address passes through a `uint8_t`. */
    method OpAnnn()
      requires Valid()
      modifies this`index
      ensures Valid()
      ensures Snapshot() == Semantics.OpAnnn(old(Snapshot()))
    {
      var addr: u8 := Trunc8(opcode % 0x1000);
      index := addr;
    }

    /** Bnnn JP V0, addr: the address passes through a `uint8_t`. */
    method OpBnnn()
      requires Valid()
      modifies this`pc
      ensures Valid()
      ensures Snapshot() == Semantics.OpBnnn(old(Snapshot()))
    {
      var addr: u8 := Trunc8(opcode % 0x1000);
      pc := Trunc16(addr as int + regs[0]);
    }
  }

  /** A CALL followed by a RET on a machine object returns to the caller's
      pc and stack pointer; the only trace it leaves is the return address
      in the freed stack slot. */
  method CallThenRetOnMachine(m: Chip8)
    requires m.Valid() && m.sp < STACK_LEVELS
    modifies m, m.stack
    ensures m.Valid() && m.pc == old(m.pc) && m.sp == old(m.sp)
    ensures m.regs[..] == old(m.regs[..]) && m.video[..] == old(m.video[..])
    ensures m.Snapshot() == old(m.Snapshot()).(stack := old(m.stack[..])[old(m.sp) := old(m.pc)])
  {
    m.Op2nnn();
    m.Op00EE();
  }
}
