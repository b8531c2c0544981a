/** The processor record of cpu.h and what main.c does to it: allocation
    in `initializeCPU`, the `OUT` handler `machineOUT`, and one pass of the
    main loop, which executes `IN d8` (0xdb) and `OUT d8` (0xd3) itself and
    hands every other opcode to the instruction interpreter. */
module Cpu {
  import opened CTypes
  import opened IoPorts

  /** Bytes of memory `initializeCPU` allocates */
  const MemSize := 0x1_0000

  /** Opcode of `IN d8` */
  const OpIn: byte := 0xdb

  /** Opcode of `OUT d8` */
  const OpOut: byte := 0xd3

  /** Whether the main loop handles the opcode itself rather than passing
      it to the interpreter */
  predicate IsPortOpcode(op: byte)
  {
    op == OpIn || op == OpOut
  }

  /** The one-bit condition codes of `struct FlagRegister` (the padding
      bits are never read) */
  datatype Flags = Flags(c: bool, p: bool, ac: bool, z: bool, s: bool)

  const ZeroFlags := Flags(false, false, false, false, false)

  /** `CPUState`: the seven 8-bit registers, the 16-bit program counter and
      stack pointer, the 64KB memory, the port latches, the flags and the
      interrupt latch */
  class CPUState {
    var b: byte
    var c: byte
    var d: byte
    var e: byte
    var h: byte
    var l: byte
    var a: byte
    var pc: address
    var sp: address
    var mem: array<byte>
    var ports: Ports
    var flags: Flags
    var intEnable: byte

    /** The memory has its full 64KB and the shift amount its 3 bits */
    ghost predicate Valid()
      reads this
    {
      mem.Length == MemSize && ports.write2 <= 7
    }

    /** `initializeCPU`: `calloc` zeroes every field and `malloc` supplies
        64KB of memory whose contents are not specified. */
    constructor ()
      ensures Valid() && fresh(mem)
      ensures b == 0 && c == 0 && d == 0 && e == 0 && h == 0 && l == 0 && a == 0
      ensures pc == 0 && sp == 0
      ensures ports == ZeroPorts && flags == ZeroFlags && intEnable == 0
    {
      b, c, d, e, h, l, a := 0, 0, 0, 0, 0, 0, 0;
      pc, sp := 0, 0;
      ports := ZeroPorts;
      flags := ZeroFlags;
      intEnable := 0;
      mem := new byte[MemSize];
    }

    /** `machineOUT`: the accumulator goes to the latch named by `port`;
        nothing but the latches changes. */
    method MachineOut(port: byte)
      requires Valid()
      modifies this
      ensures Valid()
      ensures ports == MachineOutPorts(old(ports), a, port)
      ensures unchanged(this`b, this`c, this`d, this`e, this`h, this`l, this`a)
      ensures unchanged(this`pc, this`sp, this`mem, this`flags, this`intEnable)
    {
      ports := MachineOutPorts(ports, a, port);
    }

    /** One pass of the main loop's body. For `IN d8` and `OUT d8` the port
        number is the byte after the opcode; `IN` loads the handler's byte
        into `a` (for a port other than 3 that byte is whatever the
        uninitialised local held, given here as `uninit`), `OUT` runs
        `machineOUT`, and both advance the 16-bit `pc` by two. Any other
        opcode belongs to the interpreter, which is not part of this model:
        the step reports it and leaves the state alone. Reading the operand
        at `pc + 1` must stay inside the 64KB block. */
    method Step(uninit: byte) returns (handled: bool)
      requires Valid()
      requires IsPortOpcode(mem[pc]) ==> pc + 1 < MemSize
      modifies this
      ensures Valid()
      ensures handled <==> IsPortOpcode(mem[old(pc)])
      ensures !handled ==> unchanged(this)
      ensures handled ==> pc == (old(pc) + 2) % 0x1_0000
      ensures handled ==> unchanged(this`b, this`c, this`d, this`e, this`h, this`l)
      ensures handled ==> unchanged(this`sp, this`mem, this`flags, this`intEnable)
      ensures unchanged(mem)
      ensures mem[old(pc)] == OpIn ==>
                a == MachineIn(old(ports), mem[old(pc) + 1]).GetOr(uninit) && ports == old(ports)
      ensures mem[old(pc)] == OpOut ==>
                ports == MachineOutPorts(old(ports), a, mem[old(pc) + 1]) && a == old(a)
      // the shift register, once clear, stays clear, and `IN 3` then loads zero
      ensures old(ports.read3) == 0 ==> ports.read3 == 0
      ensures old(ports.read3) == 0 && mem[old(pc)] == OpIn && mem[old(pc) + 1] == 3 ==> a == 0
    {
      var opcode := mem[pc];
      if opcode == OpIn {
        var port := mem[pc + 1];
        a := MachineIn(ports, port).GetOr(uninit);
        pc := (pc + 2) % 0x1_0000;
        handled := true;
      } else if opcode == OpOut {
        var port := mem[pc + 1];
        MachineOut(port);
        pc := (pc + 2) % 0x1_0000;
        handled := true;
      } else {
        handled := false;
      }
    }
  }

  /** A caller's view: on a freshly initialised machine whose first
      instruction is `IN 3`, one step loads zero into `a` and moves `pc` to
      the next instruction. */
  method FirstInReadsZero(uninit: byte)
  {
    var cpu := new CPUState();
    cpu.mem[0] := OpIn;
    cpu.mem[1] := 3;
    var handled := cpu.Step(uninit);
    assert handled && cpu.a == 0 && cpu.pc == 2;
  }
}
