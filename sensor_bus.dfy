/**
 * The I2C side of the Micron image sensors: the transactions the FX3 I2C
 * block performs for the firmware, register writes as the firmware issues
 * them, and the MCU variable access those sensors offer through a pair of
 * registers, one of which selects a variable and the other writes it.
 */
module SensorBus {
  import opened Bytes

  /**
   * A call of CyU3PI2cTransmitBytes (the preamble, then the data bytes) or of
   * CyU3PI2cReceiveBytes (the preamble, where bit k of ctrlMask asks for a
   * repeated start after preamble byte k, then `count` bytes read back).
   */
  datatype I2cOp =
    | Transmit(preamble: seq<byte>, ctrlMask: u16, data: seq<byte>)
    | Receive(preamble: seq<byte>, ctrlMask: u16, count: nat)

  /** A read transaction and the bytes the firmware ends up with in its buffer. */
  datatype BusRead = BusRead(op: I2cOp, buf: seq<byte>)

  /** One register write as the firmware issues it. */
  datatype RegWrite = RegWrite(address: u16, value: u16)

  /** `buf[0] = value >> 8; buf[1] = value & 0xFF`: the two bytes pack back to the value. */
  function ValueBytes(v: u16): (b: seq<byte>)
    ensures |b| == 2 && Pack16(b[0], b[1]) == v
  {
    Split16(v);
    [HiByte(v), LoByte(v)]
  }

  /**
   * What a register read returns: `(buf[0] << 8) | buf[1]` of the two bytes
   * read back, or 0 when the transfer failed and the zeroed buffer stayed.
   * Splitting a successful result again gives exactly the bytes read.
   */
  function ReadValue(ok: bool, reply: seq<byte>): (v: u16)
    requires |reply| == 2
    ensures ok ==> ValueBytes(v) == reply
    ensures !ok ==> v == 0
  {
    if ok then Pack16(reply[0], reply[1]) else 0
  }

  /** The register selecting an MCU variable and the register writing it. */
  datatype VarPair = VarPair(addressReg: u16, dataReg: u16)

  /** A variable write: the variable's address to the first register of the pair, then the value to the second. */
  function VarWrite(pair: VarPair, variable: u16, value: u16): seq<RegWrite>
  {
    [RegWrite(pair.addressReg, variable), RegWrite(pair.dataReg, value)]
  }

  /** The sensor's registers, the variable the pair has selected, and the MCU variables. */
  datatype SensorRegs = SensorRegs(regs: map<u16, u16>, selected: u16, vars: map<u16, u16>)

  /** One register write as the sensor takes it. */
  function ApplyWrite(s: SensorRegs, pair: VarPair, w: RegWrite): SensorRegs
  {
    if w.address == pair.addressReg then s.(selected := w.value)
    else if w.address == pair.dataReg then s.(vars := s.vars[s.selected := w.value])
    else s.(regs := s.regs[w.address := w.value])
  }

  /** A sequence of register writes, in order. */
  function Apply(s: SensorRegs, pair: VarPair, ws: seq<RegWrite>): SensorRegs
    decreases |ws|
  {
    if ws == [] then s else Apply(ApplyWrite(s, pair, ws[0]), pair, ws[1..])
  }

  /** Writing two sequences one after the other is writing their concatenation. */
  lemma {:induction false} ApplyAppend(s: SensorRegs, pair: VarPair, a: seq<RegWrite>, b: seq<RegWrite>)
    ensures Apply(s, pair, a + b) == Apply(Apply(s, pair, a), pair, b)
    decreases |a|
  {
    if a != [] {
      assert (a + b)[0] == a[0] && (a + b)[1..] == a[1..] + b;
      ApplyAppend(ApplyWrite(s, pair, a[0]), pair, a[1..], b);
    } else {
      assert a + b == b;
    }
  }

  /** A variable write leaves that variable selected and holding the value; no register changes. */
  lemma VarWriteEffect(s: SensorRegs, pair: VarPair, variable: u16, value: u16)
    requires pair.addressReg != pair.dataReg
    ensures Apply(s, pair, VarWrite(pair, variable, value)) == s.(selected := variable, vars := s.vars[variable := value])
  {
    var ws := VarWrite(pair, variable, value);
    var s1 := ApplyWrite(s, pair, ws[0]);
    assert s1 == s.(selected := variable);
    assert Apply(s, pair, ws) == Apply(s1, pair, ws[1..]);
    assert Apply(s1, pair, ws[1..]) == Apply(ApplyWrite(s1, pair, ws[1]), pair, []);
  }

  /** A write to a register outside the pair sets that register only. */
  lemma RegWriteEffect(s: SensorRegs, pair: VarPair, w: RegWrite)
    requires w.address != pair.addressReg && w.address != pair.dataReg
    ensures Apply(s, pair, [w]) == s.(regs := s.regs[w.address := w.value])
  {
    assert [w][1..] == [];
  }

  /** Sequencer variables of the sensor's MCU: the mode bits, the state command and the auto functions. */
  const SEQ_MODE: u16 := 0xA120
  const SEQ_CMD: u16 := 0xA103
  const SEQ_AUTO: u16 := 0xA102

  /**
   * sensorScaling: 1200 lines selects capture mode B (mode 2, then the
   * command to go to capture); any other value selects preview mode A
   * (mode 0, then the command to go to preview).
   */
  function SequencerScaling(pair: VarPair, lines: int): seq<RegWrite>
  {
    if lines == 1200 then VarWrite(pair, SEQ_MODE, 0x02) + VarWrite(pair, SEQ_CMD, 0x02)
    else VarWrite(pair, SEQ_MODE, 0x00) + VarWrite(pair, SEQ_CMD, 0x01)
  }

  /** sensorButton's variable write: the auto functions on (0x21) for a non-zero value, all off for zero. */
  function AutoFunctions(pair: VarPair, value: int): seq<RegWrite>
  {
    VarWrite(pair, SEQ_AUTO, if value != 0 then 0x21 else 0)
  }

  /**
   * Scaling sets the sequencer mode and command to 2 and 2 exactly for 1200
   * lines, and to 0 and 1 otherwise; no other variable and no register changes.
   */
  lemma {:induction false} ScalingEffect(s: SensorRegs, pair: VarPair, lines: int)
    requires pair.addressReg != pair.dataReg
    ensures var r := Apply(s, pair, SequencerScaling(pair, lines));
      r.regs == s.regs && SEQ_MODE in r.vars && SEQ_CMD in r.vars
      && (lines == 1200 <==> r.vars[SEQ_MODE] == 2)
      && (lines == 1200 <==> r.vars[SEQ_CMD] == 2)
      && (lines != 1200 ==> r.vars[SEQ_MODE] == 0 && r.vars[SEQ_CMD] == 1)
      && r.vars == s.vars[SEQ_MODE := r.vars[SEQ_MODE]][SEQ_CMD := r.vars[SEQ_CMD]]
  {
    var mode := if lines == 1200 then 2 else 0;
    var cmd := if lines == 1200 then 2 else 1;
    assert SequencerScaling(pair, lines) == VarWrite(pair, SEQ_MODE, mode) + VarWrite(pair, SEQ_CMD, cmd);
    ApplyAppend(s, pair, VarWrite(pair, SEQ_MODE, mode), VarWrite(pair, SEQ_CMD, cmd));
    VarWriteEffect(s, pair, SEQ_MODE, mode);
    var s1 := Apply(s, pair, VarWrite(pair, SEQ_MODE, mode));
    VarWriteEffect(s1, pair, SEQ_CMD, cmd);
  }

  /** The auto-function write sets that variable to 0x21 exactly for a non-zero value, else 0; no register changes. */
  lemma AutoFunctionsEffect(s: SensorRegs, pair: VarPair, value: int)
    requires pair.addressReg != pair.dataReg
    ensures var r := Apply(s, pair, AutoFunctions(pair, value));
      r.regs == s.regs && r.vars == s.vars[SEQ_AUTO := if value != 0 then 0x21 else 0]
  {
    VarWriteEffect(s, pair, SEQ_AUTO, if value != 0 then 0x21 else 0);
  }
}
