/**
 * Properties of the CHIP-8 CPU that relate several operations, or that hold
 * of every opcode `tick` can fetch.
 */
module Chip8Properties {
  import opened Chip8Spec

  /** `reset` does not restore the state `new` built: the font is gone from RAM. */
  lemma ResetLosesFont()
    ensures Reset().ram[..FontsetSize] != Fontset
    ensures Reset() != PowerOn()
  {
    assert Fontset[FontsetSize - 1] == 0x80;
    assert Reset().ram[FontsetSize - 1] == 0;
  }

  /** `n` successive `tick_timers` calls. */
  function TickTimersTimes(m: Machine, n: nat): Machine
    decreases n
  {
    if n == 0 then m else TickTimersTimes(TickTimers(m), n - 1)
  }

  /** A timer value after counting down `n` times from `t`, stopping at zero. */
  function CountDown(t: u8, n: nat): (r: u8)
    ensures r <= t
  {
    if n >= t as int then 0 else t - n
  }

  /**
   * After `n` calls of `tick_timers` each timer has dropped by `n`, but not
   * below zero, and nothing else has changed.
   */
  lemma {:induction false} TimersAfterTicks(m: Machine, n: nat)
    ensures TickTimersTimes(m, n)
            == m.(delayTimer := CountDown(m.delayTimer, n), soundTimer := CountDown(m.soundTimer, n))
    decreases n
  {
    if n > 0 {
      TimersAfterTicks(TickTimers(m), n - 1);
    }
  }

  /** A timer at zero stays at zero. */
  lemma TimersFloorAtZero(m: Machine)
    requires m.delayTimer == 0 && m.soundTimer == 0
    ensures TickTimers(m) == m
  {
  }

  /**
   * `pop` after a successful `push(v)` returns `v` and restores the stack
   * pointer; the only trace left is `v` in the slot above the stack top.
   */
  lemma PopAfterPush(m: Machine, v: u16)
    requires WellFormed(m) && Push(m, v).Ok?
    ensures Pop(Push(m, v).value) == Ok(Popped(v, m.(stack := m.stack[m.stackPointer := v])))
    ensures Frames(Pop(Push(m, v).value).value.next) == Frames(m)
  {
  }

  /** `ret` right after `call` puts the program counter back where the call found it. */
  lemma RetAfterCall(m: Machine, opcode: u16)
    requires WellFormed(m) && Call(m, opcode).Ok?
    ensures Ret(Call(m, opcode).value)
            == Ok(m.(stack := m.stack[m.stackPointer := m.programCounter]))
  {
  }

  /** The opcodes `execute` has a handler for. */
  predicate Implemented(opcode: u16)
  {
    opcode == 0x0000 || opcode == 0x00E0 || opcode == 0x00EE || 0x1000 <= opcode < 0x6000
  }

  /**
   * `execute` reaches the unimplemented panic exactly for the opcodes it has no
   * handler for: first nibble 6 to F, or first nibble 0 other than 0000, 00E0, 00EE.
   */
  lemma UnimplementedExactly(m: Machine, opcode: u16)
    requires WellFormed(m)
    ensures Execute(m, Decode(opcode), opcode) == Panic(Unimplemented(opcode)) <==> !Implemented(opcode)
  {
  }

  /** `0000` changes nothing. */
  lemma ExecuteNop(m: Machine)
    requires WellFormed(m)
    ensures Execute(m, Decode(0x0000), 0x0000) == Ok(m)
  {
  }

  /** `00E0` switches all 2048 screen cells off and changes nothing else. */
  lemma ExecuteCls(m: Machine)
    requires WellFormed(m)
    ensures var r := Execute(m, Decode(0x00E0), 0x00E0);
            && r.Ok?
            && (forall p :: 0 <= p < ScreenSize ==> !r.value.screen[p])
            && r.value == m.(screen := r.value.screen)
  {
  }

  /**
   * A tick over the bytes 00 E0 clears the screen and moves on to the next
   * instruction; over 00 00 it only moves on.
   */
  lemma TickNopOrCls(m: Machine)
    requires WellFormed(m) && m.programCounter as int + 1 < RamSize
    requires m.ram[m.programCounter] == 0x00
    requires m.ram[m.programCounter + 1] == 0x00 || m.ram[m.programCounter + 1] == 0xE0
    ensures Tick(m).Ok?
    ensures m.ram[m.programCounter + 1] == 0x00 ==>
              Tick(m).value == m.(programCounter := m.programCounter + 2)
    ensures m.ram[m.programCounter + 1] == 0xE0 ==>
              Tick(m).value == m.(programCounter := m.programCounter + 2, screen := seq(ScreenSize, _ => false))
  {
  }

  /**
   * The skip instructions 3xnn, 4xnn and 5xy? add 2 to the program counter
   * when their condition holds and leave it alone otherwise; nothing else
   * changes.  The 5 pattern ignores the last nibble.
   */
  lemma ExecuteSkip(m: Machine, opcode: u16)
    requires WellFormed(m) && m.programCounter as int <= 0x1000
    requires 0x3000 <= opcode < 0x6000
    ensures var x, y, nn := opcode / 0x100 % 0x10, opcode / 0x10 % 0x10, opcode % 0x100;
            var taken := if opcode < 0x4000 then m.vRegisters[x] == nn
                         else if opcode < 0x5000 then m.vRegisters[x] != nn
                         else m.vRegisters[x] == m.vRegisters[y];
            Execute(m, Decode(opcode), opcode)
            == Ok(m.(programCounter := if taken then m.programCounter + 2 else m.programCounter))
  {
  }

  /** Two `5xy?` opcodes that differ only in their last nibble do the same. */
  lemma SkipEqVyIgnoresLastNibble(m: Machine, opcode: u16, other: u16)
    requires WellFormed(m)
    requires opcode / 0x1000 == 5 && opcode / 0x10 == other / 0x10
    ensures Execute(m, Decode(opcode), opcode) == Execute(m, Decode(other), other)
  {
  }

  /**
   * A tick that fetches `1nnn` or `2nnn` leaves the program counter at `nnn`,
   * below 0x1000; `2nnn` pushes the program counter as the fetch left it,
   * two bytes past the call.
   */
  lemma TickJumpOrCall(m: Machine)
    requires WellFormed(m) && m.programCounter as int + 1 < RamSize
    requires var first := m.ram[m.programCounter] / 0x10; first == 1 || first == 2
    requires m.ram[m.programCounter] / 0x10 == 2 ==> m.stackPointer as int < StackSize
    ensures var pc := m.programCounter;
            var target := m.ram[pc] as int % 0x10 * 0x100 + m.ram[pc + 1];
            && Tick(m).Ok?
            && Tick(m).value.programCounter == target < 0x1000
            && (m.ram[pc] / 0x10 == 1 ==> Tick(m).value == m.(programCounter := target))
            && (m.ram[pc] / 0x10 == 2 ==> Frames(Tick(m).value) == Frames(m) + [pc + 2])
  {
  }

  /**
   * A `2nnn` call whose target holds `00EE` returns: two ticks later the
   * program counter is just past the call and the stack pointer is back where
   * it was.  Only the stack slot the call used keeps the return address.
   */
  lemma CallThenReturn(m: Machine)
    requires WellFormed(m) && m.programCounter as int + 1 < RamSize
    requires m.ram[m.programCounter] / 0x10 == 2 && m.stackPointer as int < StackSize
    requires var target := m.ram[m.programCounter] as int % 0x10 * 0x100 + m.ram[m.programCounter + 1];
             target + 1 < RamSize && m.ram[target] == 0x00 && m.ram[target + 1] == 0xEE
    ensures Tick(m).Ok? && Tick(Tick(m).value)
            == Ok(m.(programCounter := m.programCounter + 2,
                     stack := m.stack[m.stackPointer := m.programCounter + 2]))
  {
  }
}
