/**
 * The Rust `CPU` struct of chip8_core/src/lib.rs as a class whose methods
 * update its fields and arrays in place.  `Model()` reads the whole state as a
 * `Chip8Spec.Machine`, and every method is proved to do to that value exactly
 * what the matching function of Chip8Spec does.
 */
module Chip8 {
  import opened Chip8Spec

  class Cpu {
    var programCounter: u16
    const ram: array<u8>
    const screen: array<bool>
    const vRegisters: array<u8>
    var iRegister: u16
    var stackPointer: u16
    const stack: array<u16>
    const keypad: array<bool>
    var delayTimer: u8
    var soundTimer: u8

    /** The fixed array sizes, no two arrays shared, and the stack pointer within the stack. */
    ghost predicate Valid()
      reads this
    {
      && ram.Length == RamSize
      && screen.Length == ScreenSize
      && vRegisters.Length == NumRegs
      && stack.Length == StackSize
      && keypad.Length == NumKeys
      && ram != vRegisters
      && screen != keypad
      && stackPointer as int <= StackSize
    }

    /** The whole state as a value. */
    ghost function Model(): (m: Machine)
      reads this, ram, screen, vRegisters, stack, keypad
      requires Valid()
      ensures WellFormed(m)
    {
      Machine(programCounter, ram[..], screen[..], vRegisters[..], iRegister,
              stackPointer, stack[..], keypad[..], delayTimer, soundTimer)
    }

    /** `new`: a zeroed CPU with the program counter at 0x200 and the font copied into RAM. */
    constructor ()
      ensures Valid() && Model() == PowerOn()
      ensures fresh(ram) && fresh(screen) && fresh(vRegisters) && fresh(stack) && fresh(keypad)
    {
      programCounter := StartAddress;
      ram := new u8[RamSize](_ => 0);
      screen := new bool[ScreenSize](_ => false);
      vRegisters := new u8[NumRegs](_ => 0);
      iRegister := 0;
      stackPointer := 0;
      stack := new u16[StackSize](_ => 0);
      keypad := new bool[NumKeys](_ => false);
      delayTimer := 0;
      soundTimer := 0;
      new;
      forall a | 0 <= a < FontsetSize {
        ram[a] := Fontset[a];
      }
      assert ram[..] == PowerOn().ram;
    }

    /** `reset`: every field back to zero and the program counter to 0x200; the font is not reloaded. */
    method Reset()
      requires Valid()
      modifies this, ram, screen, vRegisters, stack, keypad
      ensures Valid() && Model() == Chip8Spec.Reset()
    {
      programCounter := StartAddress;
      forall a | 0 <= a < ram.Length {
        ram[a] := 0;
      }
      forall p | 0 <= p < screen.Length {
        screen[p] := false;
      }
      forall r | 0 <= r < vRegisters.Length {
        vRegisters[r] := 0;
      }
      iRegister := 0;
      stackPointer := 0;
      forall k | 0 <= k < stack.Length {
        stack[k] := 0;
      }
      forall k | 0 <= k < keypad.Length {
        keypad[k] := false;
      }
      delayTimer := 0;
      soundTimer := 0;
      assert ram[..] == Chip8Spec.Reset().ram;
      assert screen[..] == Chip8Spec.Reset().screen;
      assert vRegisters[..] == Chip8Spec.Reset().vRegisters;
      assert stack[..] == Chip8Spec.Reset().stack;
      assert keypad[..] == Chip8Spec.Reset().keypad;
    }

    /** `push`: panics on a full stack before writing anything. */
    method Push(val: u16) returns (fault: Option<Fault>)
      requires Valid()
      modifies this`stackPointer, stack
      ensures Valid()
      ensures Chip8Spec.Push(old(Model()), val) == Report(fault, Model())
      ensures fault.Some? ==> Model() == old(Model())
    {
      if stackPointer as int >= stack.Length {
        return Some(StackOverflow);
      }
      stack[stackPointer] := val;
      stackPointer := stackPointer + 1;
      fault := None;
    }

    /** `pop`: panics on an empty stack before writing anything. */
    method Pop() returns (val: u16, fault: Option<Fault>)
      requires Valid()
      modifies this`stackPointer
      ensures Valid()
      ensures Chip8Spec.Pop(old(Model())) == Report(fault, Popped(val, Model()))
      ensures fault.Some? ==> Model() == old(Model())
    {
      if stackPointer == 0 {
        return 0, Some(StackUnderflow);
      }
      stackPointer := stackPointer - 1;
      val := stack[stackPointer];
      fault := None;
    }

    /** `tick_timers`: count each timer down by one, stopping at zero. */
    method TickTimers()
      requires Valid()
      modifies this`delayTimer, this`soundTimer
      ensures Valid() && Model() == Chip8Spec.TickTimers(old(Model()))
    {
      if delayTimer > 0 {
        delayTimer := delayTimer - 1;
      }
      if soundTimer > 0 {
        soundTimer := soundTimer - 1;
      }
    }

    /** `tick`: fetch one opcode, decode it and execute it. */
    method Tick() returns (fault: Option<Fault>)
      requires Valid()
      modifies this`programCounter, this`stackPointer, screen, stack
      ensures Valid()
      ensures Chip8Spec.Tick(old(Model())) == Report(fault, Model())
    {
      var opcode;
      opcode, fault := Fetch();
      if fault.Some? {
        return;
      }
      var digits := Decode(opcode);
      fault := Execute(digits, opcode);
    }

    /** `fetch`: read the big-endian word at the program counter and advance it by 2. */
    method Fetch() returns (opcode: u16, fault: Option<Fault>)
      requires Valid()
      modifies this`programCounter
      ensures Valid()
      ensures Chip8Spec.Fetch(old(Model())) == Report(fault, Fetched(opcode, Model()))
      ensures fault.Some? ==> Model() == old(Model())
    {
      if programCounter as int >= ram.Length {
        return 0, Some(RamOutOfBounds(programCounter as int));
      }
      var firstHalf: u16 := ram[programCounter];
      if programCounter as int + 1 >= ram.Length {
        return 0, Some(RamOutOfBounds(programCounter as int + 1));
      }
      var secondHalf: u16 := ram[programCounter + 1];
      programCounter := programCounter + 2;
      opcode := firstHalf * 0x100 + secondHalf;
      fault := None;
    }

    /** `execute`: run the handler the digits select; any other opcode is unimplemented. */
    method Execute(digits: Digits, opcode: u16) returns (fault: Option<Fault>)
      requires Valid()
      modifies this`programCounter, this`stackPointer, screen, stack
      ensures Valid()
      ensures Chip8Spec.Execute(old(Model()), digits, opcode) == Report(fault, Model())
      ensures fault.Some? ==> Model() == old(Model())
    {
      fault := None;
      match digits
      case (0, 0, 0, 0) => return;
      case (0, 0, 0xE, 0) => Cls();
      case (0, 0, 0xE, 0xE) => fault := Ret();
      case (1, _, _, _) => Jmp(opcode);
      case (2, _, _, _) => fault := Call(opcode);
      case (3, _, _, _) => fault := SkipEqNn(digits.1, opcode);
      case (4, _, _, _) => fault := SkipNeqNn(digits.1, opcode);
      case (5, _, _, _) => fault := SkipEqVy(digits.1, digits.2);
      case _ => fault := Some(Unimplemented(opcode));
    }

    /** `cls`: switch every screen cell off. */
    method Cls()
      requires Valid()
      modifies screen
      ensures Valid() && Model() == Chip8Spec.Cls(old(Model()))
    {
      forall p | 0 <= p < screen.Length {
        screen[p] := false;
      }
      assert screen[..] == Chip8Spec.Cls(old(Model())).screen;
    }

    /** `ret`: pop the return address into the program counter. */
    method Ret() returns (fault: Option<Fault>)
      requires Valid()
      modifies this`programCounter, this`stackPointer
      ensures Valid()
      ensures Chip8Spec.Ret(old(Model())) == Report(fault, Model())
      ensures fault.Some? ==> Model() == old(Model())
    {
      var returnAddress;
      returnAddress, fault := Pop();
      if fault.None? {
        programCounter := returnAddress;
      }
    }

    /** `jmp`: the program counter becomes the opcode's low 12 bits. */
    method Jmp(opcode: u16)
      requires Valid()
      modifies this`programCounter
      ensures Valid() && Model() == Chip8Spec.Jmp(old(Model()), opcode)
    {
      var newAddress := opcode % 0x1000;
      programCounter := newAddress;
    }

    /** `call`: push the program counter, then jump to the opcode's low 12 bits. */
    method Call(opcode: u16) returns (fault: Option<Fault>)
      requires Valid()
      modifies this`programCounter, this`stackPointer, stack
      ensures Valid()
      ensures Chip8Spec.Call(old(Model()), opcode) == Report(fault, Model())
      ensures fault.Some? ==> Model() == old(Model())
    {
      var subroutineAddress := opcode % 0x1000;
      fault := Push(programCounter);
      if fault.None? {
        programCounter := subroutineAddress;
      }
    }

    /** Add 2 to the program counter; the u16 addition panics past 0xFFFF. */
    method SkipNext() returns (fault: Option<Fault>)
      requires Valid()
      modifies this`programCounter
      ensures Valid()
      ensures Chip8Spec.SkipNext(old(Model())) == Report(fault, Model())
      ensures fault.Some? ==> Model() == old(Model())
    {
      if programCounter as int + 2 >= 0x1_0000 {
        return Some(PcOverflow);
      }
      programCounter := programCounter + 2;
      fault := None;
    }

    /** `skip_eq_nn`: skip when Vx equals the opcode's low byte. */
    method SkipEqNn(x: nibble, opcode: u16) returns (fault: Option<Fault>)
      requires Valid()
      modifies this`programCounter
      ensures Valid()
      ensures Chip8Spec.SkipEqNn(old(Model()), x, opcode) == Report(fault, Model())
      ensures fault.Some? ==> Model() == old(Model())
    {
      var nn := opcode % 0x100;
      fault := None;
      if vRegisters[x] == nn {
        fault := SkipNext();
      }
    }

    /** `skip_neq_nn`: skip when Vx differs from the opcode's low byte. */
    method SkipNeqNn(x: nibble, opcode: u16) returns (fault: Option<Fault>)
      requires Valid()
      modifies this`programCounter
      ensures Valid()
      ensures Chip8Spec.SkipNeqNn(old(Model()), x, opcode) == Report(fault, Model())
      ensures fault.Some? ==> Model() == old(Model())
    {
      var nn := opcode % 0x100;
      fault := None;
      if vRegisters[x] != nn {
        fault := SkipNext();
      }
    }

    /** `skip_eq_vy`: skip when Vx equals Vy. */
    method SkipEqVy(x: nibble, y: nibble) returns (fault: Option<Fault>)
      requires Valid()
      modifies this`programCounter
      ensures Valid()
      ensures Chip8Spec.SkipEqVy(old(Model()), x, y) == Report(fault, Model())
      ensures fault.Some? ==> Model() == old(Model())
    {
      fault := None;
      if vRegisters[x] == vRegisters[y] {
        fault := SkipNext();
      }
    }
  }
}
