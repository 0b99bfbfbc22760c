/**
 * The MT9D111 image sensor driver: 8-bit register addressing on the I2C bus
 * (bus address 0x90 to write, 0x91 to read), register writes grouped by the
 * page register 0xF0, and MCU variables reached through the pair 0xC6
 * (variable address) and 0xC8 (variable data). The scaling, button and
 * focus operations are the register-write sequences they issue; their
 * effect on the sensor is given by SensorBus.Apply.
 */
module Mt9d111 {
  import opened Bytes
  import opened Wrappers
  import opened SensorBus

  const SENSOR_ADDR_WR: byte := 0x90
  const SENSOR_ADDR_RD: byte := 0x91
  const PAGE_REG: u16 := 0xF0
  const MCU_VARS: VarPair := VarPair(0xC6, 0xC8)

  /** GPIO1 special-function variables: output enable, PWM off time, PWM on time. */
  const GPIO_DATA: u16 := 0x9071
  const GPIO_OFF_TIME: u16 := 0x9081
  const GPIO_ON_TIME: u16 := 0x9083

  /** writeReg: the preamble `[0x90, address & 0xFF]` with no extra start or stop, then the value high byte first. */
  function WriteOp(w: RegWrite): I2cOp
  {
    Transmit([SENSOR_ADDR_WR, LoByte(w.address)], 0x0000, [HiByte(w.value), LoByte(w.value)])
  }

  /** readReg: the preamble `[0x90, address & 0xFF, 0x91]` with a repeated start after its second byte, then two bytes. */
  function ReadOp(address: u16): I2cOp
  {
    Receive([SENSOR_ADDR_WR, LoByte(address), SENSOR_ADDR_RD], 0x0002, 2)
  }

  /** How the sensor reads a write transaction: the register it addresses and the value it receives. */
  function DecodeWrite(op: I2cOp): Option<RegWrite>
  {
    if op.Transmit? && |op.preamble| == 2 && op.preamble[0] == SENSOR_ADDR_WR
       && op.ctrlMask == 0 && |op.data| == 2
    then Some(RegWrite(op.preamble[1], Pack16(op.data[0], op.data[1])))
    else None
  }

  /** How the sensor reads a read transaction: the register it addresses. */
  function DecodeRead(op: I2cOp): Option<u16>
  {
    if op.Receive? && |op.preamble| == 3 && op.preamble[0] == SENSOR_ADDR_WR
       && op.preamble[2] == SENSOR_ADDR_RD && op.ctrlMask == 0x0002 && op.count == 2
    then Some(op.preamble[1])
    else None
  }

  /** A register write reaches the register named by the low byte of its address, with its value intact. */
  lemma WriteDecodes(w: RegWrite)
    ensures DecodeWrite(WriteOp(w)) == Some(RegWrite(w.address % 0x100, w.value))
  {
  }

  /** A register read addresses the register named by the low byte of its address. */
  lemma ReadDecodes(address: u16)
    ensures DecodeRead(ReadOp(address)) == Some(address % 0x100)
  {
  }

  /** Addresses that agree in their low byte are the same register on the bus. */
  lemma AddressAliases(a: u16, b: u16, value: u16)
    ensures (WriteOp(RegWrite(a, value)) == WriteOp(RegWrite(b, value))) <==> a % 0x100 == b % 0x100
  {
  }

  /** The bus transactions of a sequence of register writes, one per write and in order. */
  function Frames(ws: seq<RegWrite>): (ops: seq<I2cOp>)
    ensures |ops| == |ws|
    ensures forall i :: 0 <= i < |ws| ==> ops[i] == WriteOp(ws[i])
  {
    seq(|ws|, i requires 0 <= i < |ws| => WriteOp(ws[i]))
  }

  /** The transactions of two write sequences in a row are those of the first, then those of the second. */
  lemma FramesAppend(a: seq<RegWrite>, b: seq<RegWrite>)
    ensures Frames(a + b) == Frames(a) + Frames(b)
  {
  }

  /** I2C_Write: the high address byte is ignored, and the data bytes are sent high byte first. */
  function I2cWrite(hiAddr: byte, loAddr: byte, hiData: byte, loData: byte): (op: I2cOp)
    ensures DecodeWrite(op) == Some(RegWrite(loAddr, Pack16(hiData, loData)))
    ensures op.Transmit? && op.data == [hiData, loData]
  {
    WriteOp(RegWrite(loAddr, Pack16(hiData, loData)))
  }

  /**
   * I2C_Read: the read transaction of the register named by the low address
   * byte, and the value it returns split into `buf[0..2]` high byte first;
   * on success that is exactly the reply, on failure two zeros.
   */
  function I2cRead(hiAddr: byte, loAddr: byte, ok: bool, reply: seq<byte>): (r: BusRead)
    requires |reply| == 2
    ensures DecodeRead(r.op) == Some(loAddr as u16)
    ensures ok ==> r.buf == reply
    ensures !ok ==> r.buf == [0, 0]
  {
    var value := ReadValue(ok, reply);
    BusRead(ReadOp(loAddr), [HiByte(value), LoByte(value)])
  }

  /** sensorScaling: the sequencer switch of SensorBus.Scaling through 0xC6/0xC8. */
  function Scaling(lines: int): seq<RegWrite>
  {
    SequencerScaling(MCU_VARS, lines)
  }

  /** sensorButton: page 1, then the auto functions on (0x21) for a non-zero value and off otherwise. */
  function Button(value: int): seq<RegWrite>
  {
    [RegWrite(PAGE_REG, 1)] + AutoFunctions(MCU_VARS, value)
  }

  /** The focus drive after the in-place clamp `if (value > 254) value = 254`. */
  function FocusOnTime(value: int): (on: int)
    requires value > 1
    ensures 1 < on <= 254
    ensures on == value || (value > 254 && on == 254)
  {
    if value > 254 then 254 else value
  }

  /**
   * sensorFocus: page 1; for a value up to 1 GPIO1 is disabled, fully off;
   * otherwise page 1 again and GPIO1 is enabled with a PWM on time of the
   * clamped value and an off time of 255 minus it.
   */
  function Focus(value: int): seq<RegWrite>
  {
    [RegWrite(PAGE_REG, 1)] + FocusDrive(value)
  }

  /** The writes of sensorFocus after its first page write. */
  function FocusDrive(value: int): seq<RegWrite>
  {
    if value <= 1 then GpioWrites(0x00, 0)
    else [RegWrite(PAGE_REG, 1)] + GpioWrites(0x02, FocusOnTime(value))
  }

  /** Scaling sets the sequencer mode and command to 2 and 2 exactly for 1200 lines, else 0 and 1. */
  lemma ScalingEffect(s: SensorRegs, lines: int)
    ensures var r := Apply(s, MCU_VARS, Scaling(lines));
      r.regs == s.regs && SEQ_MODE in r.vars && SEQ_CMD in r.vars
      && (lines == 1200 <==> r.vars[SEQ_MODE] == 2 && r.vars[SEQ_CMD] == 2)
      && (lines != 1200 <==> r.vars[SEQ_MODE] == 0 && r.vars[SEQ_CMD] == 1)
  {
    SensorBus.ScalingEffect(s, MCU_VARS, lines);
  }

  /** Button selects page 1 and sets the auto functions to 0x21 exactly for a non-zero value, else 0. */
  lemma {:induction false} ButtonEffect(s: SensorRegs, value: int)
    ensures var r := Apply(s, MCU_VARS, Button(value));
      r.regs == s.regs[PAGE_REG := 1]
      && r.vars == s.vars[SEQ_AUTO := if value != 0 then 0x21 else 0]
  {
    ApplyAppend(s, MCU_VARS, [RegWrite(PAGE_REG, 1)], AutoFunctions(MCU_VARS, value));
    RegWriteEffect(s, MCU_VARS, RegWrite(PAGE_REG, 1));
    AutoFunctionsEffect(s.(regs := s.regs[PAGE_REG := 1]), MCU_VARS, value);
  }

  /**
   * Focus leaves page 1 selected and GPIO1 with on and off times that add
   * up to 255: for a value up to 1 disabled and never on; otherwise enabled
   * and on for the value clamped to 254.
   */
  lemma {:induction false} FocusEffect(s: SensorRegs, value: int)
    ensures var r := Apply(s, MCU_VARS, Focus(value));
      var on := if value <= 1 then 0 else if value > 254 then 254 else value;
      r.regs == s.regs[PAGE_REG := 1]
      && r.vars == s.vars[GPIO_DATA := if value <= 1 then 0 else 2][GPIO_OFF_TIME := 255 - on][GPIO_ON_TIME := on]
      && r.vars[GPIO_OFF_TIME] + r.vars[GPIO_ON_TIME] == 255
  {
    var page := [RegWrite(PAGE_REG, 1)];
    var s1 := s.(regs := s.regs[PAGE_REG := 1]);
    RegWriteEffect(s, MCU_VARS, RegWrite(PAGE_REG, 1));
    if value <= 1 {
      FocusWrites(s1, 0, 0);
      ApplyAppend(s, MCU_VARS, page, GpioWrites(0, 0));
    } else {
      var on := FocusOnTime(value);
      RegWriteEffect(s1, MCU_VARS, RegWrite(PAGE_REG, 1));
      assert Apply(s1, MCU_VARS, page) == s1;
      FocusWrites(s1, 2, on);
      ApplyAppend(s1, MCU_VARS, page, GpioWrites(2, on));
      assert Focus(value) == page + (page + GpioWrites(2, on));
      ApplyAppend(s, MCU_VARS, page, page + GpioWrites(2, on));
    }
  }

  /** The three GPIO1 variable writes of sensorFocus for an enable value and an on time. */
  function GpioWrites(enable: u16, on: int): seq<RegWrite>
    requires 0 <= on <= 255
  {
    VarWrite(MCU_VARS, GPIO_DATA, enable) + VarWrite(MCU_VARS, GPIO_OFF_TIME, 255 - on)
    + VarWrite(MCU_VARS, GPIO_ON_TIME, on)
  }

  lemma {:induction false} FocusWrites(s: SensorRegs, enable: u16, on: int)
    requires 0 <= on <= 255
    ensures Apply(s, MCU_VARS, GpioWrites(enable, on)).regs == s.regs
    ensures Apply(s, MCU_VARS, GpioWrites(enable, on)).vars
      == s.vars[GPIO_DATA := enable][GPIO_OFF_TIME := 255 - on][GPIO_ON_TIME := on]
  {
    var a := VarWrite(MCU_VARS, GPIO_DATA, enable);
    var b := VarWrite(MCU_VARS, GPIO_OFF_TIME, 255 - on);
    var c := VarWrite(MCU_VARS, GPIO_ON_TIME, on);
    ApplyAppend(s, MCU_VARS, a + b, c);
    ApplyAppend(s, MCU_VARS, a, b);
    VarWriteEffect(s, MCU_VARS, GPIO_DATA, enable);
    var s1 := Apply(s, MCU_VARS, a);
    VarWriteEffect(s1, MCU_VARS, GPIO_OFF_TIME, 255 - on);
    var s2 := Apply(s1, MCU_VARS, b);
    VarWriteEffect(s2, MCU_VARS, GPIO_ON_TIME, on);
  }
}
