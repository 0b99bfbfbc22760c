/**
 * The MT9D112 image sensor driver: 16-bit register addressing on the I2C bus
 * (bus address 0x78 to write, 0x79 to read), with the MCU variables reached
 * through the pair 0x338C (variable address) and 0x3390 (variable data).
 * There is no page register, and the lens drive is not used.
 */
module Mt9d112 {
  import opened Bytes
  import opened Wrappers
  import opened SensorBus

  const SENSOR_ADDR_WR: byte := 0x78
  const SENSOR_ADDR_RD: byte := 0x79
  const MCU_VARS: VarPair := VarPair(0x338C, 0x3390)

  /** writeReg: the preamble `[0x78, address >> 8, address & 0xFF]` with no extra start or stop, then the value high byte first. */
  function WriteOp(w: RegWrite): I2cOp
  {
    Transmit([SENSOR_ADDR_WR, HiByte(w.address), LoByte(w.address)], 0x0000, [HiByte(w.value), LoByte(w.value)])
  }

  /** readReg: the preamble `[0x78, address >> 8, address & 0xFF, 0x79]` with a repeated start after its third byte, then two bytes. */
  function ReadOp(address: u16): I2cOp
  {
    Receive([SENSOR_ADDR_WR, HiByte(address), LoByte(address), SENSOR_ADDR_RD], 0x0004, 2)
  }

  /** How the sensor reads a write transaction: the register it addresses and the value it receives. */
  function DecodeWrite(op: I2cOp): Option<RegWrite>
  {
    if op.Transmit? && |op.preamble| == 3 && op.preamble[0] == SENSOR_ADDR_WR
       && op.ctrlMask == 0 && |op.data| == 2
    then Some(RegWrite(Pack16(op.preamble[1], op.preamble[2]), Pack16(op.data[0], op.data[1])))
    else None
  }

  /** How the sensor reads a read transaction: the register it addresses. */
  function DecodeRead(op: I2cOp): Option<u16>
  {
    if op.Receive? && |op.preamble| == 4 && op.preamble[0] == SENSOR_ADDR_WR
       && op.preamble[3] == SENSOR_ADDR_RD && op.ctrlMask == 0x0004 && op.count == 2
    then Some(Pack16(op.preamble[1], op.preamble[2]))
    else None
  }

  /** Every register write reaches exactly its register with its value. */
  lemma WriteDecodes(w: RegWrite)
    ensures DecodeWrite(WriteOp(w)) == Some(w)
  {
    Split16(w.address);
  }

  /** Every register read addresses exactly its register. */
  lemma ReadDecodes(address: u16)
    ensures DecodeRead(ReadOp(address)) == Some(address)
  {
    Split16(address);
  }

  /** The bus transactions of a sequence of register writes, one per write and in order. */
  function Frames(ws: seq<RegWrite>): (ops: seq<I2cOp>)
    ensures |ops| == |ws|
    ensures forall i :: 0 <= i < |ws| ==> ops[i] == WriteOp(ws[i])
  {
    seq(|ws|, i requires 0 <= i < |ws| => WriteOp(ws[i]))
  }

  /** The transactions of two write sequences in a row are those of the first, then those of the second. */
  lemma FramesAppend(a: seq<RegWrite>, b: seq<RegWrite>)
    ensures Frames(a + b) == Frames(a) + Frames(b)
  {
  }

  /** I2C_Write: the register `(hiAddr << 8) | loAddr` receives `(hiData << 8) | loData`, both sent high byte first. */
  function I2cWrite(hiAddr: byte, loAddr: byte, hiData: byte, loData: byte): (op: I2cOp)
    ensures DecodeWrite(op) == Some(RegWrite(Pack16(hiAddr, loAddr), Pack16(hiData, loData)))
    ensures op.Transmit? && op.preamble[1..] == [hiAddr, loAddr] && op.data == [hiData, loData]
  {
    WriteDecodes(RegWrite(Pack16(hiAddr, loAddr), Pack16(hiData, loData)));
    WriteOp(RegWrite(Pack16(hiAddr, loAddr), Pack16(hiData, loData)))
  }

  /**
   * I2C_Read: the read transaction of register `(hiAddr << 8) | loAddr`, and
   * the value it returns split into `buf[0..2]` high byte first; on success
   * that is exactly the reply, on failure two zeros.
   */
  function I2cRead(hiAddr: byte, loAddr: byte, ok: bool, reply: seq<byte>): (r: BusRead)
    requires |reply| == 2
    ensures DecodeRead(r.op) == Some(Pack16(hiAddr, loAddr))
    ensures ok ==> r.buf == reply
    ensures !ok ==> r.buf == [0, 0]
  {
    ReadDecodes(Pack16(hiAddr, loAddr));
    var value := ReadValue(ok, reply);
    BusRead(ReadOp(Pack16(hiAddr, loAddr)), [HiByte(value), LoByte(value)])
  }

  /** sensorScaling: the sequencer switch of SensorBus through 0x338C/0x3390. */
  function Scaling(lines: int): seq<RegWrite>
  {
    SequencerScaling(MCU_VARS, lines)
  }

  /** sensorButton: the auto functions on (0x21) for a non-zero value and off otherwise, with no page write. */
  function Button(value: int): seq<RegWrite>
  {
    AutoFunctions(MCU_VARS, value)
  }

  /** Scaling sets the sequencer mode and command to 2 and 2 exactly for 1200 lines, else 0 and 1. */
  lemma ScalingEffect(s: SensorRegs, lines: int)
    ensures var r := Apply(s, MCU_VARS, Scaling(lines));
      r.regs == s.regs && SEQ_MODE in r.vars && SEQ_CMD in r.vars
      && (lines == 1200 <==> r.vars[SEQ_MODE] == 2 && r.vars[SEQ_CMD] == 2)
      && (lines != 1200 <==> r.vars[SEQ_MODE] == 0 && r.vars[SEQ_CMD] == 1)
  {
    SensorBus.ScalingEffect(s, MCU_VARS, lines);
  }

  /** Button sets the auto functions to 0x21 exactly for a non-zero value, else 0; no register changes. */
  lemma ButtonEffect(s: SensorRegs, value: int)
    ensures var r := Apply(s, MCU_VARS, Button(value));
      r.regs == s.regs && r.vars == s.vars[SEQ_AUTO := if value != 0 then 0x21 else 0]
  {
    AutoFunctionsEffect(s, MCU_VARS, value);
  }

  /** sensorFocus has an empty body: no register write. */
  function Focus(value: int): seq<RegWrite>
  {
    []
  }

  /** Focus leaves the sensor as it was. */
  lemma FocusEffect(s: SensorRegs, value: int)
    ensures Apply(s, MCU_VARS, Focus(value)) == s
  {
  }
}
