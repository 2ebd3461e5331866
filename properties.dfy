/** Properties that relate several CHIP-8 handlers to one another. */
module Properties {
  import opened Constants
  import opened Bits
  import opened Semantics

  /** CALL followed by RET comes back to the pc of the CALL with the stack
      pointer restored; the only trace left is the return address in the
      freed stack slot. */
  lemma CallThenRet(s: State)
    requires Valid(s) && s.sp < STACK_LEVELS
    ensures Op00EE(Op2nnn(s)) == s.(stack := s.stack[s.sp := s.pc])
  {
  }

  /** Runs CALL once per target address, each time with the current opcode
      set to `2nnn` for that target. */
  function CallEach(s: State, targets: seq<u16>): (t: State)
    requires Valid(s) && s.sp + |targets| <= STACK_LEVELS
    ensures Valid(t) && t.sp == s.sp + |targets|
    decreases |targets|
  {
    if targets == [] then s
    else CallEach(Op2nnn(s.(opcode := 0x2000 + targets[0] % 0x1000)), targets[1..])
  }

  /** Runs RET `n` times. */
  function RetTimes(s: State, n: nat): (t: State)
    requires Valid(s) && n <= s.sp
    ensures Valid(t) && t.sp == s.sp - n
    decreases n
  {
    if n == 0 then s else Op00EE(RetTimes(s, n - 1))
  }

  /** `s` and `t` agree on everything but the opcode and the stack slots at
      or above the stack pointer of `s`. */
  predicate SameBelowSp(s: State, t: State)
    requires Valid(s) && Valid(t)
  {
    t.regs == s.regs && t.pc == s.pc && t.sp == s.sp && t.index == s.index &&
    t.video == s.video && t.keypad == s.keypad &&
    t.stack[..s.sp] == s.stack[..s.sp]
  }

  /** Nested subroutine calls return in last-in first-out order: any run of
      CALLs that fits in the stack, followed by as many RETs, brings pc and
      sp back to where they were and leaves the registers, the index, the
      frame buffer and the stack below sp as they were. */
  lemma {:induction false} NestedCallsReturn(s: State, targets: seq<u16>)
    requires Valid(s) && s.sp + |targets| <= STACK_LEVELS
    ensures SameBelowSp(s, RetTimes(CallEach(s, targets), |targets|))
    decreases |targets|
  {
    if targets != [] {
      var s1 := Op2nnn(s.(opcode := 0x2000 + targets[0] % 0x1000));
      var rest := targets[1..];
      NestedCallsReturn(s1, rest);
      var u := RetTimes(CallEach(s1, rest), |rest|);
      assert CallEach(s, targets) == CallEach(s1, rest);
      assert RetTimes(CallEach(s, targets), |targets|) == Op00EE(u);
      assert u.stack[s.sp] == s1.stack[s.sp] == s.pc;
      assert u.stack[..s.sp] == s1.stack[..s.sp];
    }
  }

  /** 3xkk and 4xkk read the same operands: on one state exactly one of
      them skips, and the one that skips moves pc by 2. */
  lemma SkipByteExactlyOne(s: State)
    requires Valid(s)
    ensures (Op3xkk(s) == s) != (Op4xkk(s) == s)
    ensures Op3xkk(s).pc == s.pc || Op4xkk(s).pc == s.pc
    ensures Op3xkk(s).pc == Skipped(s.pc) || Op4xkk(s).pc == Skipped(s.pc)
  {
  }

  /** 5xy0 and 9xy0 read the same operands: on one state exactly one of
      them skips, and the one that skips moves pc by 2. */
  lemma SkipRegExactlyOne(s: State)
    requires Valid(s)
    ensures (Op5xy0(s) == s) != (Op9xy0(s) == s)
    ensures Op5xy0(s).pc == s.pc || Op9xy0(s).pc == s.pc
    ensures Op5xy0(s).pc == Skipped(s.pc) || Op9xy0(s).pc == Skipped(s.pc)
  {
  }

  /** After `6xkk` loads kk into Vx, `3xkk` with the same x and kk skips and
      `4xkk` does not. */
  lemma LoadThenSkipEqual(s: State)
    requires Valid(s) && 0x6000 <= s.opcode < 0x7000
    ensures var t := Op6xkk(s);
      Op3xkk(t.(opcode := s.opcode - 0x3000)).pc == Skipped(s.pc) &&
      Op4xkk(t.(opcode := s.opcode - 0x2000)).pc == s.pc
  {
    var op3, op4 := s.opcode - 0x3000, s.opcode - 0x2000;
    assert op3 % 0x1000 == s.opcode % 0x1000 == op4 % 0x1000;
    assert X(op3) == X(s.opcode) == X(op4);
    assert Kk(op3) == Kk(s.opcode) == Kk(op4);
  }

  /** Two 7xkk on the same register whose bytes add up to 256 (or 0) give
      Vx back. */
  lemma AddByteInverse(s: State, next: u16)
    requires Valid(s) && X(next) == X(s.opcode) && (Kk(s.opcode) as int + Kk(next)) % 0x100 == 0
    ensures Op7xkk(Op7xkk(s).(opcode := next)).regs == s.regs
  {
  }

  /** 8xy4 followed by 8xy5 on the same x and y, both other than F and
      distinct, gives Vx back: the subtraction undoes the wrap-around of the
      addition. */
  lemma AddThenSubRestores(s: State)
    requires Valid(s) && s.opcode % 0x10 == 4
    requires X(s.opcode) != Y(s.opcode) && X(s.opcode) != VF && Y(s.opcode) != VF
    ensures var u := Op8xy5(Op8xy4(s).(opcode := s.opcode + 1));
      u.regs[X(s.opcode)] == s.regs[X(s.opcode)] &&
      OnlyVxVfChanged(s, u.(opcode := s.opcode), X(s.opcode))
  {
  }

  /** 8xy3 applied twice with x and y distinct leaves the registers as they were. */
  lemma XorTwiceRestores(s: State)
    requires Valid(s) && X(s.opcode) != Y(s.opcode)
    ensures Op8xy3(Op8xy3(s)).regs == s.regs
  {
  }

  /** With x = y, 8xy1 and 8xy2 change nothing and 8xy3 clears Vx. */
  lemma SameRegisterLogic(s: State)
    requires Valid(s) && X(s.opcode) == Y(s.opcode)
    ensures Op8xy1(s) == s && Op8xy2(s) == s
    ensures Op8xy3(s).regs[X(s.opcode)] == 0
  {
    var x := X(s.opcode);
    OrAndIdempotent(s.regs[x], 8);
    XorSelfZero(s.regs[x], 8);
  }

  /** With Vx = Vy and x other than F, both 8xy5 and 8xy7 give Vx = 0 and VF = 0. */
  lemma SubEqualOperands(s: State)
    requires Valid(s) && X(s.opcode) != VF && s.regs[X(s.opcode)] == s.regs[Y(s.opcode)]
    ensures Op8xy5(s).regs[X(s.opcode)] == 0 && Op8xy5(s).regs[VF] == 0
    ensures Op8xy7(s).regs[X(s.opcode)] == 0 && Op8xy7(s).regs[VF] == 0
  {
  }

  /** 8xyE then 8xy6 on the same x (other than F) clears the top bit of Vx
      and leaves VF = 0, the bit that the left shift brought in. */
  lemma ShiftLeftThenRight(s: State)
    requires Valid(s) && X(s.opcode) != VF
    ensures var u := Op8xy6(Op8xyE(s));
      u.regs[X(s.opcode)] == s.regs[X(s.opcode)] % 0x80 && u.regs[VF] == 0
  {
  }

  /** Clearing the screen twice is the same as clearing it once. */
  lemma ClearIdempotent(s: State)
    requires Valid(s)
    ensures Op00E0(Op00E0(s)) == Op00E0(s)
  {
  }

  /** After 8xy0 copies Vy into Vx, 5xy0 on the same x and y skips and
      9xy0 does not. */
  lemma CopyThenSkipEqual(s: State)
    requires Valid(s)
    ensures var t := Op8xy0(s);
      Op5xy0(t).pc == Skipped(s.pc) && Op9xy0(t).pc == s.pc
  {
  }

  /** 8xy7 is 8xy5 with the operands swapped: with x and y distinct and both
      other than F, the opcode `8yx5` leaves in Vy and VF what `8xy7` leaves
      in Vx and VF. */
  lemma SubnIsSwappedSub(s: State, swapped: u16)
    requires Valid(s) && X(s.opcode) != Y(s.opcode) && X(s.opcode) != VF && Y(s.opcode) != VF
    requires X(swapped) == Y(s.opcode) && Y(swapped) == X(s.opcode)
    ensures var t, u := Op8xy7(s), Op8xy5(s.(opcode := swapped));
      t.regs[X(s.opcode)] == u.regs[Y(s.opcode)] && t.regs[VF] == u.regs[VF]
  {
  }

  /** Annn keeps only the low byte of the address: it loads nnn exactly
      when nnn is below 0x100, and for every larger nnn it loads a
      different value. */
  lemma AnnnKeepsLowByte(s: State)
    requires Valid(s)
    ensures OpAnnn(s).index == Nnn(s.opcode) <==> Nnn(s.opcode) < 0x100
  {
  }

  /** Bnnn keeps only the low byte of the address: it jumps to nnn + V0
      exactly when nnn is below 0x100. */
  lemma BnnnKeepsLowByte(s: State)
    requires Valid(s)
    ensures OpBnnn(s).pc == Nnn(s.opcode) + s.regs[0] as int <==> Nnn(s.opcode) < 0x100
  {
  }
}
