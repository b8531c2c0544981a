# Space Invaders 8080 emulator: the I/O boundary

This project models, in Dafny, the part of the emulator's main program that
sits between the Intel 8080 interpreter and the arcade board's hardware: the
`CPUState` record, its allocation (`initializeCPU`), the two port handlers
(`machineIN` for the `IN` instruction, `machineOUT` for `OUT`) and one pass of
the main loop, which executes `IN d8` (opcode 0xdb) and `OUT d8` (opcode 0xd3)
itself and hands every other opcode to the interpreter.

The board's only port device is a shift register used to draw sprites at pixel
offsets. Writing port 4 is meant to push the accumulator into the top byte of
a 16-bit register. Writing port 2 sets a 3-bit offset. Reading port 3 returns
the 8 bits that the offset selects. In the code, however, the register latch
`read3` is a `uint8_t`. The model keeps that width, as the code has it.
It proves what follows from it: `OUT 4` always clears the latch, and `IN 3`
can only ever load zero. The 16-bit register the code evidently intends is
modelled beside it (see Findings).

Modules:

- `CTypes` (c_types.dfy): `uint8_t` and `uint16_t` as 8- and 16-bit
  bit-vectors, C's `int` (to which every shift and bitwise operand is promoted)
  as a 32-bit bit-vector, and the truncating conversions back to `uint8_t` and
  `uint16_t`. The 16-bit `pc` and `sp` are integers below 0x10000; where
  `pc` advances, its wrap-around is written out.
- `IoPorts` (io_ports.dfy): the `Ports` record and the two handlers as functions on it.
- `Cpu` (cpu.dfy): the `CPUState` class with its constructor (`initializeCPU`),
  the in-place `MachineOut` and `Step` (one iteration of the main loop).
- `ShiftFinding` (shift_finding.dfy): the 16-bit shift register and lemmas
  comparing it with the code as written.

Two behaviours a reader might expect are not what the code does, and the
model follows the code. Reads of unused ports might be expected to return
zero, but `machineIN` returns an uninitialised local for every port but 3
(main.c:8-15). Memory might be expected to start zeroed, but it comes from
`malloc` (main.c:32), which leaves its contents unspecified.

## Model

| member | source | states |
|---|---|---|
| `IoPorts.MachineIn` | main.c:7-16 | Returns a byte exactly for port 3, and no defined value for every other port. For port 3 the byte is `read3 >> (8 - write2)`: widening to `uint16_t` and `int`, the `& 0xff` mask and the conversion back to a byte lose nothing. With `write2 <= 7`, bit 7 of the result is always clear. Requires `write2 <= 8`, since a negative shift count is undefined in C. |
| `IoPorts.MachineOutPorts` | main.c:19-28 | Port 2 sets `write2` to `a % 8` and changes nothing else. Port 4 leaves `read3 == 0` whatever `a` and `read3` were, and changes nothing else. Any other port leaves every latch unchanged. The shift amount is 3 bits once written. |
| `IoPorts.OutAllKeepsShiftCleared` | main.c:19-28 | Start from a cleared `read3` and a 3-bit `write2`. After any run of `OUT` instructions, `read3` is still 0 and `write2` still fits in 3 bits. The input latches and `write4` are untouched, and `IN 3` reads `Some(0)`. |
| `IoPorts.ClearedStaysCleared` | main.c:22-26 | Once `read3` is 0, it stays 0 over any run of `OUT` instructions. |
| `IoPorts.AnyOut4ClearsShift` | main.c:22-26 | Whatever the latches held, a run of `OUT` instructions with an `OUT 4` anywhere in it ends with `read3 == 0`. |
| `IoPorts.ShiftReadAfterOutsIsZero` | main.c:7-34 | Start from the latches `calloc` zeroes. After any run of `OUT` instructions, `IN 3` loads zero. |
| `Cpu.CPUState.constructor` | main.c:30-34 | Every register, `pc`, `sp`, the flags, the port latches and the interrupt latch are zero. `mem` is a fresh 0x10000-byte array, and nothing is promised about its contents. |
| `Cpu.CPUState.MachineOut` | main.c:19-28 | The latches become `MachineOutPorts(old latches, a, port)`. Registers, `pc`, `sp`, memory, flags and the interrupt latch are unchanged. |
| `Cpu.CPUState.Step` | main.c:72-83 | `handled` is true exactly when `mem[pc]` is 0xdb or 0xd3. In that case the port byte is `mem[pc + 1]` and `pc` becomes `(pc + 2) % 65536`. For `IN`, `a` gets `machineIN`'s byte, or the given indeterminate byte when the port is not 3, and the latches are unchanged. For `OUT`, the latches follow `MachineOutPorts` and `a` is unchanged. Nothing else changes. A cleared `read3` stays cleared, and `IN 3` then loads 0. Any other opcode leaves the state as it was. Requires `pc + 1` inside the 64KB block for `IN`/`OUT`. |
| `ShiftFinding.ShifterOut` | main.c:19-28 | With a 16-bit latch, port 4 makes `a` the register's top byte and the old top byte its low byte, keeping the offset. Port 2 sets the offset to `a % 8` and keeps the register. Any other port changes nothing. |
| `ShiftFinding.ShifterIn` | main.c:7-16 | With a 16-bit latch, port 3 and only port 3 yields a byte. At offset 0 it is the register's top byte, at offset 8 its low byte. |
| `ShiftFinding.TwoWritesFillRegister` | main.c:22-26 | Two writes to port 4 leave the register holding `(newer << 8) \| older`, whatever it held before. |
| `ShiftFinding.ReadWindow` | main.c:10-13 | Take the register `newer:older` and offset `w <= 7`. `IN 3` reads the byte `(newer << w) \| (older >> (8 - w))`: the newer byte moved up by `w` with the top `w` bits of the older byte below it. |
| `ShiftFinding.LoadSequence` | main.c:19-28 | From any prior state, `OUT 4, older; OUT 4, newer; OUT 2, amount` leaves the register `newer:older` at offset `amount % 8`. |
| `ShiftFinding.IntendedSequence` | main.c:7-28 | From any prior state, `OUT 4, older; OUT 4, newer; OUT 2, amount; IN 3` reads the window of `newer:older` that `amount % 8` selects. |
| `ShiftFinding.AsWrittenSequence` | main.c:7-28 | The same sequence on the 8-bit latch reads 0 for all bytes, offsets and prior states. |
| `ShiftFinding.SequenceCounterexample` | main.c:22-25 | From the zeroed latches, `OUT 4, 0x12; OUT 4, 0x34; OUT 2, 5; IN 3` reads 0x82 on the 16-bit register and 0 on the 8-bit latch of the code. |
| `ShiftFinding.OutAgreesExceptRegister` | main.c:19-28 | Given equal offsets, the two versions agree on the shift offset after any `OUT`. After `OUT 4`, the 16-bit register's top byte is the byte just written, while the 8-bit latch holds 0. |

## Left out

- The instruction interpreter `EmulateCPU` (cpu.h:42): its body is not part of this model, so no opcode other than `IN`/`OUT` is executed.
- `Cpu.CPUState.Step`: requires `pc + 1 < 0x10000` when the opcode is `IN` or `OUT`. At `pc == 0xffff` the code reads the port byte one past the 64KB block (main.c:74 and 78), which is undefined behaviour in C and is not modelled.
- `Cpu.CPUState.Step`: for any opcode other than 0xdb and 0xd3 it only reports `handled == false` and leaves the state unchanged. The real loop calls `EmulateCPU` there, which changes the state in ways not modelled here.
- `loadFile` (main.c:36-50): file I/O, with `exit(1)` on a missing file.
- The driver in `main` (main.c:52-89): the ROM paths, the test-image patches to memory and `pc`, and the outer `while (!done)` loop. The loop never ends, because `done` is never set. Only single iterations are modelled; `IoPorts.OutAll` chains the latch effects of consecutive `OUT` iterations.
- `disassembler.h` is not part of this model; it only produces text.
- The bit-field layouts of the flag register (cpu.h:6-13 and cpu.c:3-12) disagree with each other. No shown code packs or unpacks them. `Flags` keeps the five condition bits as booleans and drops the padding.
- `read1`, `read2`, `write4` and the interrupt latch are only zero-initialised, and the model keeps them unchanged everywhere else.
- `IoPorts.MachineIn`: for ports other than 3, C gives reading the uninitialised `res` no defined value. The model returns `None`, and `Step` loads a caller-supplied byte (`uninit`) into `a`. It does not model the consequences of undefined behaviour beyond that.
- The contents of freshly `malloc`ed memory are left unconstrained rather than modelled.
- C's `int` is modelled as 32 unsigned bits. No operand in these handlers is negative or anywhere near 2^31, so its sign never shows.

## Findings

| source | as written | input that shows it | evidently intended | confidence | as-written member | corrected member |
|---|---|---|---|---|---|---|
| cpu.h:19 | `read3` is `uint8_t`. So `read3 >> 8` is 0 (main.c:24), and the stored low byte of `a << 8 \| shift1` is 0 (main.c:25). Every `OUT 4` clears the latch, and `IN 3` always reads 0. | `OUT 4, 0x12; OUT 4, 0x34; OUT 2, 5; IN 3` reads 0 | A 16-bit shift register, as the comment "bit 15..8" at main.c:23 says. The same sequence then reads `(0x3412 >> 3) & 0xff == 0x82`. | high; not executed | `IoPorts.MachineOutPorts`, exhibited by `ShiftFinding.SequenceCounterexample` and `ShiftFinding.AsWrittenSequence` | `ShiftFinding.ShifterOut` with `ShiftFinding.ShifterIn`; its properties are `ShiftFinding.ReadWindow`, `ShiftFinding.LoadSequence` and `ShiftFinding.IntendedSequence` |

`Cpu.CPUState` keeps the 8-bit latch, because it models the code of main.c as
it stands. The corrected register is used by the `ShiftFinding` lemmas.
