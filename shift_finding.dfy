/** The shift register as main.c means it to be. The comment at main.c:23
    speaks of bits 15..8 of the register and the handlers shift the
    accumulator into its top byte, but cpu.h:19 declares the latch `read3`
    as `uint8_t`: every `OUT 4` then stores zero and `IN 3` can only read
    zero. Here the latch is a `uint16_t` and the handlers are otherwise
    those of main.c:7-28; the lemmas compare both versions. */
module ShiftFinding {
  import opened CTypes
  import opened IoPorts

  /** The 16-bit shift register and its 3-bit read offset */
  datatype Shifter = Shifter(reg: word, amount: byte)

  /** `machineOUT` with a 16-bit latch: port 2 sets the offset, port 4
      pushes the accumulator in at the top and moves the old top byte down */
  function ShifterOut(s: Shifter, a: byte, port: byte): (r: Shifter)
    ensures port == 2 ==> r == s.(amount := a % 8)
    // the written byte becomes the top byte, the old top byte the low byte
    ensures port == 4 ==> r.amount == s.amount && r.reg >> 8 == a as word && r.reg & 0xff == s.reg >> 8
    ensures port != 2 && port != 4 ==> r == s
  {
    if port == 2 then
      s.(amount := ToU8((a as cint) & 0x7))
    else if port == 4 then
      var shift1: byte := ToU8((s.reg as cint) >> 8);
      s.(reg := ToU16(((a as cint) << 8) | (shift1 as cint)))
    else
      s
  }

  /** `machineIN` with a 16-bit latch: port 3 reads the eight bits that
      start `8 - amount` bits up the register */
  function ShifterIn(s: Shifter, port: byte): (r: Option<byte>)
    requires s.amount <= 8
    ensures r.Some? <==> port == 3
    // offset 0 reads the top byte, offset 8 the low byte
    ensures r.Some? && s.amount == 0 ==> r.value as word == s.reg >> 8
    ensures r.Some? && s.amount == 8 ==> r.value as word == s.reg & 0xff
  {
    if port == 3 then
      var shiftVal: word := s.reg;
      Some(ToU8((shiftVal as cint) >> ((8 as cint) - (s.amount as cint))))
    else
      None
  }

  /** Two writes to port 4 leave the newer byte on top of the older one,
      whatever the register held before. */
  lemma TwoWritesFillRegister(s: Shifter, older: byte, newer: byte)
    ensures ShifterOut(ShifterOut(s, older, 4), newer, 4).reg == ((newer as word) << 8) | (older as word)
  {
  }

  /** Reading port 3 at offset `w` yields the newer byte shifted left by `w`
      with the top `w` bits of the older byte shifted in below it. */
  lemma ReadWindow(older: byte, newer: byte, w: byte)
    requires w <= 7
    ensures ShifterIn(Shifter(((newer as word) << 8) | (older as word), w), 3)
              == Some((newer << w) | (older >> (8 - w)))
  {
  }

  /** `OUT 4, older; OUT 4, newer; OUT 2, amount` leaves the register
      holding `newer:older` at offset `amount % 8`, from any prior state. */
  lemma LoadSequence(s: Shifter, older: byte, newer: byte, amount: byte)
    ensures ShifterOut(ShifterOut(ShifterOut(s, older, 4), newer, 4), amount, 2)
              == Shifter(((newer as word) << 8) | (older as word), amount % 8)
  {
    TwoWritesFillRegister(s, older, newer);
  }

  /** After `OUT 4, older; OUT 4, newer; OUT 2, amount`, from any prior
      state, `IN 3` reads the window of `newer:older` that the offset
      selects. */
  lemma IntendedSequence(s: Shifter, older: byte, newer: byte, amount: byte)
    ensures var t := ShifterOut(ShifterOut(ShifterOut(s, older, 4), newer, 4), amount, 2);
            ShifterIn(t, 3) == Some((newer << (amount % 8)) | (older >> (8 - amount % 8)))
  {
    LoadSequence(s, older, newer, amount);
    ReadWindow(older, newer, amount % 8);
  }

  /** The same sequence on the 8-bit latch of main.c reads zero, whatever
      the bytes, the offset and the prior state. */
  lemma AsWrittenSequence(p: Ports, older: byte, newer: byte, amount: byte)
    ensures var q := MachineOutPorts(MachineOutPorts(MachineOutPorts(p, older, 4), newer, 4), amount, 2);
            MachineIn(q, 3) == Some(0)
  {
  }

  /** The concrete case `OUT 4, 0x12; OUT 4, 0x34; OUT 2, 5; IN 3` from a
      freshly initialised board: the intended register reads
      `(0x3412 >> 3) & 0xff == 0x82`, the code as written reads zero. */
  lemma SequenceCounterexample()
    ensures ShifterIn(ShifterOut(ShifterOut(ShifterOut(Shifter(0, 0), 0x12, 4), 0x34, 4), 5, 2), 3)
              == Some(0x82)
    ensures MachineIn(MachineOutPorts(MachineOutPorts(MachineOutPorts(ZeroPorts, 0x12, 4), 0x34, 4), 5, 2), 3)
              == Some(0)
  {
    IntendedSequence(Shifter(0, 0), 0x12, 0x34, 5);
    AsWrittenSequence(ZeroPorts, 0x12, 0x34, 5);
  }

  /** The two versions agree on the offset after any `OUT`; after `OUT 4`
      the intended register's top byte is the byte written, where the
      8-bit latch holds zero. */
  lemma OutAgreesExceptRegister(s: Shifter, p: Ports, a: byte, port: byte)
    requires s.amount == p.write2
    ensures ShifterOut(s, a, port).amount == MachineOutPorts(p, a, port).write2
    ensures port == 4 ==> ShifterOut(s, a, port).reg >> 8 == a as word
    ensures port == 4 ==> MachineOutPorts(p, a, port).read3 == 0
  {
  }
}
