# CHIP-8 CPU core, modelled in Dafny

This project models the virtual CPU of the Chip-8 emulator in `chip8_core/src/lib.rs`.
The CPU is one owned struct. Its state is:

- the program counter;
- 4096 bytes of RAM;
- a 64×32 monochrome screen;
- sixteen V registers and the I register;
- a sixteen-entry call stack with its stack pointer;
- the keypad;
- the delay and sound timers.

The CPU offers `new`, `reset`, `tick_timers` and `tick`. A tick runs one fetch/decode/execute cycle.

The project has three modules:

- `Chip8Spec` (chip8_spec.dfy) gives the state as a value, `Machine`. It has one pure function
  per operation of the source: `PowerOn` for `new`, `Reset`, `Push`, `Pop`, `TickTimers`, `Fetch`,
  `Decode`, `Execute`, each instruction handler, and `Tick`.
- `Chip8` (chip8_cpu.dfy) holds the class `Cpu`. Its fields are the struct's fields, with arrays
  for RAM, screen, registers, stack and keypad. Its methods update them in place. Each method
  is proved to change `Model()`, the state read as a `Machine`, exactly as the matching
  `Chip8Spec` function does. Each method's `modifies` clause lists only the fields and arrays it writes.
- `Chip8Properties` (chip8_properties.dfy) holds lemmas that relate several operations.
  Examples: call then return, push then pop, many timer ticks, and which opcodes are unimplemented.

Rust panics are modelled as results. A `Chip8Spec` function returns `Panic(fault)`; a `Cpu`
method returns `Some(fault)`. The faults are:

- `RamOutOfBounds`: fetch indexes past RAM.
- `StackOverflow`: push writes `stack[16]`.
- `StackUnderflow`: pop decrements a zero stack pointer.
- `PcOverflow`: a skip adds 2 to a program counter above 0xFFFD.
- `Unimplemented`: the catch-all arm of `execute`.

Integer overflow follows debug builds, where the arithmetic panics. `Tick` is proved never to
produce `PcOverflow`, because a successful fetch leaves the program counter at most 0x1000.

The model follows the code as written, not a full CHIP-8 interpreter:

- Only eight instruction patterns have handlers: `0000`, `00E0`, `00EE`, `1nnn`, `2nnn`,
  `3xnn`, `4xnn` and `5xy?`. Every other opcode panics as unimplemented (`UnimplementedExactly`).
- `reset` zeroes the whole RAM and does not copy the font back. So the state after `reset` is
  not the state after `new` (`ResetLosesFont`). The source comment says reset goes back to the
  original state.
- The `5` pattern does not look at the last nibble, so `5xy1` … `5xyF` behave like `5xy0`
  (`SkipEqVyIgnoresLastNibble`).
- `tick_timers` has an empty branch where the sound timer goes from 1 to 0. It has no effect and
  emits no signal.

`reset` is idempotent. `Chip8Spec.Reset` takes no input, and `Cpu.Reset` ensures
`Model() == Chip8Spec.Reset()` whatever the state before. So a second reset leaves the same
state as the first.

Bit operations are written as arithmetic on integers:

- `(hi << 8) | lo` on bytes is `hi * 256 + lo`.
- Masking a u16 with `0xF000`, `0x0F00`, `0x00F0`, `0x000F` and shifting right is division and
  remainder by powers of 16.
- `& 0xFFF` is `% 0x1000`, and `(x & 0xFF) as u8` is `% 0x100`.

## Model

| member | source | states |
|---|---|---|
| `Chip8Spec.PowerOn` | chip8_core/src/lib.rs:44-62 | pc is 0x200; RAM 0..80 holds the font and every other byte is 0; screen all off; registers, I, stack, stack pointer, keypad and timers all 0 |
| `Chip8.Cpu.constructor` | chip8_core/src/lib.rs:44-62 | the new CPU's arrays are fresh and its state is `PowerOn()` |
| `Chip8Spec.Reset` | chip8_core/src/lib.rs:65-76 | the reset state is the `new` state except that all 4096 RAM bytes, font region included, are 0 |
| `Chip8.Cpu.Reset` | chip8_core/src/lib.rs:65-76 | after reset the state is `Reset()` whatever it was before, so a second reset changes nothing |
| `Chip8Properties.ResetLosesFont` | chip8_core/src/lib.rs:58-76 | the reset state differs from the `new` state: RAM 0..80 no longer holds the font |
| `Chip8Spec.Push` | chip8_core/src/lib.rs:79-82 | panics (StackOverflow) iff the stack pointer is 16; otherwise the live stack gains `val` on top, nothing but stack and stack pointer changes, and entries above the new top are untouched |
| `Chip8.Cpu.Push` | chip8_core/src/lib.rs:79-82 | does to the state what `Chip8Spec.Push` says, writing only the stack pointer and the stack; on overflow writes nothing |
| `Chip8Spec.Pop` | chip8_core/src/lib.rs:85-88 | panics (StackUnderflow) iff the stack pointer is 0; otherwise returns the top entry, the live stack loses it, and only the stack pointer changes |
| `Chip8.Cpu.Pop` | chip8_core/src/lib.rs:85-88 | returns what `Chip8Spec.Pop` returns and leaves its state, writing only the stack pointer |
| `Chip8Properties.PopAfterPush` | chip8_core/src/lib.rs:79-88 | pop after a successful push(v) returns v and gives back the original stack pointer and live stack; only the slot above the top keeps v |
| `Chip8Spec.TickTimers` | chip8_core/src/lib.rs:90-101 | each timer drops by exactly 1 when positive and stays 0 at 0; nothing else changes |
| `Chip8.Cpu.TickTimers` | chip8_core/src/lib.rs:90-101 | changes the state as `Chip8Spec.TickTimers` does, writing only the two timer fields |
| `Chip8Properties.TimersAfterTicks` | chip8_core/src/lib.rs:90-101 | after n calls each timer is max(t - n, 0), so it never wraps, and the rest of the state is unchanged |
| `Chip8Properties.TimersFloorAtZero` | chip8_core/src/lib.rs:91-100 | with both timers at 0 a timer tick changes nothing |
| `Chip8Spec.Fetch` | chip8_core/src/lib.rs:112-124 | panics (RAM index pc or pc + 1) iff pc + 1 >= 4096; otherwise the opcode is ram[pc] * 256 + ram[pc+1] (big-endian), its nibbles are those of ram[pc] then ram[pc+1], pc grows by exactly 2 and nothing else changes |
| `Chip8.Cpu.Fetch` | chip8_core/src/lib.rs:112-124 | returns the opcode `Chip8Spec.Fetch` gives and leaves its state, writing only the program counter; on a panic writes nothing |
| `Chip8Spec.Decode` | chip8_core/src/lib.rs:127-134 | four nibbles, each < 16, with n1*4096 + n2*256 + n3*16 + n4 equal to the opcode (lossless) |
| `Chip8Spec.DecodeWord` | chip8_core/src/lib.rs:123-133 | decoding the word `(hi << 8) \| lo` gives the two nibbles of `hi`, then the two nibbles of `lo` |
| `Chip8Spec.Execute` | chip8_core/src/lib.rs:136-164 | on success the state is well formed and only pc, screen, stack and stack pointer can differ: RAM, V registers, I, keypad and timers are never written |
| `Chip8.Cpu.Execute` | chip8_core/src/lib.rs:136-164 | dispatches as `Chip8Spec.Execute` does; a panic leaves the state unchanged |
| `Chip8Properties.UnimplementedExactly` | chip8_core/src/lib.rs:137-163 | execute panics as unimplemented iff the first nibble is 6..F, or it is 0 and the opcode is not 0000, 00E0 or 00EE |
| `Chip8Properties.ExecuteNop` | chip8_core/src/lib.rs:139 | `0000` leaves the state unchanged |
| `Chip8Spec.Cls` | chip8_core/src/lib.rs:167-169 | every one of the 2048 screen cells is off; nothing else changes |
| `Chip8.Cpu.Cls` | chip8_core/src/lib.rs:167-169 | changes the state as `Chip8Spec.Cls` does, writing only the screen |
| `Chip8Properties.ExecuteCls` | chip8_core/src/lib.rs:142 | `00E0` switches all 2048 cells off and changes nothing else |
| `Chip8Properties.TickNopOrCls` | chip8_core/src/lib.rs:103-110 | a tick over bytes 00 00 only advances pc by 2; over 00 E0 it also clears the screen |
| `Chip8Spec.Ret` | chip8_core/src/lib.rs:172-175 | panics (StackUnderflow) iff the stack is empty; otherwise pc becomes the popped top of the live stack and only pc and stack pointer change |
| `Chip8.Cpu.Ret` | chip8_core/src/lib.rs:172-175 | changes the state as `Chip8Spec.Ret` does, writing only pc and stack pointer |
| `Chip8Spec.Jmp` | chip8_core/src/lib.rs:178-181 | pc becomes the opcode's low three nibbles, so pc < 0x1000; nothing else changes |
| `Chip8.Cpu.Jmp` | chip8_core/src/lib.rs:178-181 | changes the state as `Chip8Spec.Jmp` does, writing only pc |
| `Chip8Spec.Call` | chip8_core/src/lib.rs:184-188 | panics (StackOverflow) iff the stack is full; otherwise the old pc is pushed on the live stack, slots above the new top are untouched, and pc becomes the low three nibbles (< 0x1000) |
| `Chip8.Cpu.Call` | chip8_core/src/lib.rs:184-188 | changes the state as `Chip8Spec.Call` does; on overflow leaves pc unchanged |
| `Chip8Properties.RetAfterCall` | chip8_core/src/lib.rs:172-188 | ret right after a successful call restores pc and stack pointer; only the used stack slot keeps the return address |
| `Chip8Spec.SkipNext` | chip8_core/src/lib.rs:194 | pc grows by exactly 2 unless that passes 0xFFFF, which panics (PcOverflow); nothing else changes |
| `Chip8.Cpu.SkipNext` | chip8_core/src/lib.rs:194 | changes the state as `Chip8Spec.SkipNext` does, writing only pc |
| `Chip8Spec.SkipEqNn` | chip8_core/src/lib.rs:191-196 | skips (pc + 2) when Vx equals the opcode's low byte, otherwise leaves the state unchanged |
| `Chip8.Cpu.SkipEqNn` | chip8_core/src/lib.rs:191-196 | changes the state as `Chip8Spec.SkipEqNn` does, writing only pc |
| `Chip8Spec.SkipNeqNn` | chip8_core/src/lib.rs:199-204 | skips when Vx differs from the opcode's low byte, otherwise leaves the state unchanged |
| `Chip8.Cpu.SkipNeqNn` | chip8_core/src/lib.rs:199-204 | changes the state as `Chip8Spec.SkipNeqNn` does, writing only pc |
| `Chip8Spec.SkipEqVy` | chip8_core/src/lib.rs:207-211 | when Vx differs from Vy the state is unchanged (no panic possible); when they are equal the result is `SkipNext`: pc + 2, failing only above 0xFFFD |
| `Chip8.Cpu.SkipEqVy` | chip8_core/src/lib.rs:207-211 | changes the state as `Chip8Spec.SkipEqVy` does, writing only pc |
| `Chip8Properties.ExecuteSkip` | chip8_core/src/lib.rs:154-160 | for 3xnn, 4xnn and 5xy? (with pc as a fetch leaves it), pc grows by exactly 2 when Vx == nn, Vx != nn or Vx == Vy respectively, and nothing changes otherwise |
| `Chip8Properties.SkipEqVyIgnoresLastNibble` | chip8_core/src/lib.rs:160 | two 5xy? opcodes that differ only in the last nibble have the same effect |
| `Chip8Spec.Tick` | chip8_core/src/lib.rs:103-110 | on success the state is well formed and only pc, screen, stack and stack pointer can differ; a tick never panics with PcOverflow |
| `Chip8.Cpu.Tick` | chip8_core/src/lib.rs:103-110 | fetches, decodes and executes as `Chip8Spec.Tick` says, writing only pc, stack pointer, screen and stack |
| `Chip8Properties.TickJumpOrCall` | chip8_core/src/lib.rs:178-188 | a tick over 1nnn or 2nnn sets pc to nnn < 0x1000; 1nnn changes nothing else, and 2nnn pushes the pc the fetch left, two bytes past the call |
| `Chip8Properties.CallThenReturn` | chip8_core/src/lib.rs:172-188 | a tick over 2nnn whose target holds 00EE, followed by a second tick, returns pc to just after the call and the stack pointer to where it was |

## Left out

- `load_rom`, `keypress` and `get_display`: the front ends call them, but chip8_core/src/lib.rs does not define them. They are not part of this model.
- The desktop front end (SDL window, event pump, ROM file reading, scaled drawing) and its key table: I/O over a foreign library.
- The WebAssembly wrapper and the browser glue (canvas drawing in floating point, DOM lookups, the animation loop): I/O.
- Opcodes with no handler in the source, that is every opcode `Implemented` excludes (`UnimplementedExactly`): first nibble 0 other than 0000, 00E0 and 00EE, and everything from 6xnn to Fxnn (6xnn, 7xnn, 8xy*, 9xy0, Annn, Bnnn, Cxnn, Dxyn, Ex**, Fx**). They are modelled only as reaching the unimplemented panic.
- The empty branch for the sound timer reaching 0: it has no effect, so no sound or signal is modelled.
- The panic message text is not modelled; a fault carries only its kind, plus the address or opcode.
- Release builds wrap on u16 overflow instead of panicking. The model takes the debug-build panic. This matters only for `pop` on an empty stack, which panics either way, and for a skip with pc above 0xFFFD, which `tick` cannot reach.
- Chip8.Cpu.Tick: after a panic its contract names the fault but not the state left behind. The Rust process aborts on a panic, and an unimplemented opcode panics after the fetch has advanced pc. Every other `Cpu` method states that a panic leaves the state unchanged.
- Chip8.Cpu.Execute: it takes the digits as nibbles (< 16), where the source takes any u16 tuple. The source only passes the output of `decode`, which is always nibbles.
