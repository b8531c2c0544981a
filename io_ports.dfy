/** The I/O latches of the arcade board (`Ports` in cpu.h) and the two
    handlers the main loop calls for the 8080 `IN` and `OUT` instructions.
    Every latch is a `uint8_t`, the shift-register latch `read3` included,
    and the handlers are modelled with that width. */
module IoPorts {
  import opened CTypes

  datatype Option<T> = None | Some(value: T) {
    /** The held value, or `default` when there is none */
    function GetOr(default: T): T
    {
      match this
      case Some(v) => v
      case None => default
    }
  }

  /** `struct Ports`: two input latches, the shift-register latch, the
      shift amount written through port 2 and a latch for port 4 */
  datatype Ports = Ports(read1: byte, read2: byte, read3: byte, write2: byte, write4: byte)

  /** The latches as `calloc` leaves them */
  const ZeroPorts := Ports(0, 0, 0, 0, 0)

  /** `machineIN`. Port 3 reads the shift register, widened to `uint16_t`,
      shifted right by `8 - write2` and masked to a byte. For any other
      port the local `res` is never assigned, so the returned byte is
      indeterminate: `None`. A negative shift count is undefined in C,
      hence `write2 <= 8`. */
  function MachineIn(p: Ports, port: byte): (r: Option<byte>)
    requires p.write2 <= 8
    ensures r.Some? <==> port == 3
    // widening, masking and narrowing lose nothing: the byte is the latch shifted right
    ensures r.Some? ==> r.value == p.read3 >> (8 - p.write2)
    // with an 8-bit latch and a shift of at least one, bit 7 is never set
    ensures r.Some? && p.write2 <= 7 ==> r.value < 0x80
  {
    if port == 3 then
      var shiftVal: word := p.read3 as word;
      Some(ToU8((shiftVal as cint) >> ((8 as cint) - (p.write2 as cint))))
    else
      None
  }

  /** `machineOUT` on the latches, given the accumulator `a`: port 2 takes
      the low three bits of `a` as the shift amount; port 4 stores
      `a << 8 | (read3 >> 8)`, converted to `uint8_t`, into `read3`. */
  function MachineOutPorts(p: Ports, a: byte, port: byte): (r: Ports)
    ensures port == 2 ==> r == p.(write2 := a % 8)
    // the low byte of `a << 8` is zero and so is `read3 >> 8`: port 4 clears the latch
    ensures port == 4 ==> r == p.(read3 := 0)
    ensures port != 2 && port != 4 ==> r == p
    ensures port == 2 ==> r.write2 <= 7
  {
    if port == 2 then
      p.(write2 := ToU8((a as cint) & 0x7))
    else if port == 4 then
      var shift1: byte := ToU8((p.read3 as cint) >> 8);
      p.(read3 := ToU8(((a as cint) << 8) | (shift1 as cint)))
    else
      p
  }

  /** The latches after a run of `OUT` instructions, each given as the
      accumulator value and the port byte */
  function OutAll(p: Ports, outs: seq<(byte, byte)>): Ports
    decreases |outs|
  {
    if outs == [] then p
    else OutAll(MachineOutPorts(p, outs[0].0, outs[0].1), outs[1..])
  }

  /** From latches with a cleared shift register and a 3-bit shift amount,
      no run of `OUT` instructions ever puts data into `read3`, so `IN 3`
      reads zero; the input latches and `write4` are never touched. */
  lemma {:induction false} OutAllKeepsShiftCleared(p: Ports, outs: seq<(byte, byte)>)
    requires p.read3 == 0 && p.write2 <= 7
    ensures OutAll(p, outs).read3 == 0 && OutAll(p, outs).write2 <= 7
    ensures OutAll(p, outs).read1 == p.read1 && OutAll(p, outs).read2 == p.read2
    ensures OutAll(p, outs).write4 == p.write4
    ensures MachineIn(OutAll(p, outs), 3) == Some(0)
    decreases |outs|
  {
    if outs != [] {
      OutAllKeepsShiftCleared(MachineOutPorts(p, outs[0].0, outs[0].1), outs[1..]);
    }
  }

  /** Whatever the latch held before, a run of `OUT` instructions with an
      `OUT 4` anywhere in it leaves `read3` cleared. */
  lemma {:induction false} AnyOut4ClearsShift(p: Ports, outs: seq<(byte, byte)>, k: nat)
    requires k < |outs| && outs[k].1 == 4
    ensures OutAll(p, outs).read3 == 0
    decreases |outs|
  {
    var q := MachineOutPorts(p, outs[0].0, outs[0].1);
    if k == 0 {
      ClearedStaysCleared(q, outs[1..]);
    } else {
      AnyOut4ClearsShift(q, outs[1..], k - 1);
    }
  }

  /** A cleared latch stays cleared over any run of `OUT` instructions. */
  lemma {:induction false} ClearedStaysCleared(p: Ports, outs: seq<(byte, byte)>)
    requires p.read3 == 0
    ensures OutAll(p, outs).read3 == 0
    decreases |outs|
  {
    if outs != [] {
      ClearedStaysCleared(MachineOutPorts(p, outs[0].0, outs[0].1), outs[1..]);
    }
  }

  /** Starting from the zeroed latches, `IN 3` after any run of `OUT`
      instructions loads zero. */
  lemma ShiftReadAfterOutsIsZero(outs: seq<(byte, byte)>)
    ensures OutAll(ZeroPorts, outs).write2 <= 7
    ensures MachineIn(OutAll(ZeroPorts, outs), 3) == Some(0)
  {
    OutAllKeepsShiftCleared(ZeroPorts, outs);
  }
}
