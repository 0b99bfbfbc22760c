/**
 * The combined MT9D111/MT9D112 driver. A flag, set once at start-up from the
 * chip identification register, chooses for every later access between the
 * MT9D111 framing (8-bit register addresses) and the MT9D112 framing (16-bit
 * register addresses); the register-write sequences are those of the two
 * single-sensor drivers. The I2C transactions issued are kept in `bus`, in
 * order; whether a transaction succeeds and what a read returns are
 * parameters.
 */
module Mt9dSensor {
  import opened Bytes
  import opened SensorBus
  import Mt9d111
  import Mt9d112

  /** What the identification step found, and so which initialisation table follows. */
  datatype Detected = Found111 | Found112 | NoSensor

  const MT9D111_ID: u16 := 0x1519
  const MT9D112_ID: u16 := 0x1580
  const MT9D112_ID_REG: u16 := 0x3000

  /**
   * sensorInit's decision from the two identification reads: an MT9D111
   * when register 0 of the 8-bit framing reads 0x1519; otherwise an MT9D112
   * when register 0x3000 of the 16-bit framing reads 0x1580; otherwise
   * nothing is initialised.
   */
  function Detect(id111: u16, id112: u16): (d: Detected)
    ensures d == Found111 <==> id111 == MT9D111_ID
    ensures d == Found112 <==> id111 != MT9D111_ID && id112 == MT9D112_ID
    ensures d == NoSensor <==> id111 != MT9D111_ID && id112 != MT9D112_ID
  {
    if id111 == MT9D111_ID then Found111
    else if id112 == MT9D112_ID then Found112
    else NoSensor
  }

  /** The bus transactions of a register-write sequence in the framing the flag selects. */
  function Frames(is111: bool, ws: seq<RegWrite>): seq<I2cOp>
  {
    if is111 then Mt9d111.Frames(ws) else Mt9d112.Frames(ws)
  }

  class DualSensor {
    /** `static int mt9d111`: which framing every access uses. */
    var mt9d111: bool
    /** The I2C transactions issued so far. */
    var bus: seq<I2cOp>

    /** The flag starts set: the MT9D111 framing until identification says otherwise. */
    constructor ()
      ensures mt9d111 && bus == []
    {
      mt9d111 := true;
      bus := [];
    }

    /** writeReg111. */
    method WriteReg111(address: u16, value: u16)
      modifies this`bus
      ensures bus == old(bus) + [Mt9d111.WriteOp(RegWrite(address, value))]
    {
      bus := bus + [Mt9d111.WriteOp(RegWrite(address, value))];
    }

    /** writeReg112. */
    method WriteReg112(address: u16, value: u16)
      modifies this`bus
      ensures bus == old(bus) + [Mt9d112.WriteOp(RegWrite(address, value))]
    {
      bus := bus + [Mt9d112.WriteOp(RegWrite(address, value))];
    }

    /** readReg111: the buffer starts zeroed, so a failed read returns 0. */
    method ReadReg111(address: u16, ok: bool, reply: seq<byte>) returns (value: u16)
      requires |reply| == 2
      modifies this`bus
      ensures bus == old(bus) + [Mt9d111.ReadOp(address)]
      ensures value == ReadValue(ok, reply)
    {
      bus := bus + [Mt9d111.ReadOp(address)];
      var buf: seq<byte> := [0, 0];
      if ok {
        buf := reply;
      }
      value := Pack16(buf[0], buf[1]);
    }

    /** readReg112: the buffer starts zeroed, so a failed read returns 0. */
    method ReadReg112(address: u16, ok: bool, reply: seq<byte>) returns (value: u16)
      requires |reply| == 2
      modifies this`bus
      ensures bus == old(bus) + [Mt9d112.ReadOp(address)]
      ensures value == ReadValue(ok, reply)
    {
      bus := bus + [Mt9d112.ReadOp(address)];
      var buf: seq<byte> := [0, 0];
      if ok {
        buf := reply;
      }
      value := Pack16(buf[0], buf[1]);
    }

    /** I2C_Write: the write of the single-sensor driver the flag selects. */
    method I2cWrite(hiAddr: byte, loAddr: byte, hiData: byte, loData: byte)
      modifies this`bus
      ensures bus == old(bus) + [if mt9d111 then Mt9d111.I2cWrite(hiAddr, loAddr, hiData, loData)
                                 else Mt9d112.I2cWrite(hiAddr, loAddr, hiData, loData)]
    {
      if mt9d111 {
        WriteReg111(loAddr, Pack16(hiData, loData));
      } else {
        WriteReg112(Pack16(hiAddr, loAddr), Pack16(hiData, loData));
      }
    }

    /** I2C_Read: the read of the single-sensor driver the flag selects, and the buffer it fills. */
    method I2cRead(hiAddr: byte, loAddr: byte, ok: bool, reply: seq<byte>) returns (buf: seq<byte>)
      requires |reply| == 2
      modifies this`bus
      ensures var r := if mt9d111 then Mt9d111.I2cRead(hiAddr, loAddr, ok, reply)
                       else Mt9d112.I2cRead(hiAddr, loAddr, ok, reply);
        bus == old(bus) + [r.op] && buf == r.buf
    {
      var value: u16;
      if mt9d111 {
        value := ReadReg111(loAddr, ok, reply);
      } else {
        value := ReadReg112(Pack16(hiAddr, loAddr), ok, reply);
      }
      buf := [HiByte(value), LoByte(value)];
    }

    /** `writeReg111 (0xC6, variable); writeReg111 (0xC8, value)`: one MCU variable write. */
    method WriteVar111(variable: u16, value: u16)
      modifies this`bus
      ensures bus == old(bus) + Mt9d111.Frames(VarWrite(Mt9d111.MCU_VARS, variable, value))
    {
      WriteReg111(0xC6, variable);
      WriteReg111(0xC8, value);
    }

    /** `writeReg112 (0x338C, variable); writeReg112 (0x3390, value)`: one MCU variable write. */
    method WriteVar112(variable: u16, value: u16)
      modifies this`bus
      ensures bus == old(bus) + Mt9d112.Frames(VarWrite(Mt9d112.MCU_VARS, variable, value))
    {
      WriteReg112(0x338C, variable);
      WriteReg112(0x3390, value);
    }

    /** sensorScaling: the sequencer switch for the sensor the flag selects. */
    method Scaling(lines: int)
      modifies this`bus
      ensures bus == old(bus) + Frames(mt9d111, if mt9d111 then Mt9d111.Scaling(lines) else Mt9d112.Scaling(lines))
    {
      if mt9d111 {
        Scaling111(lines);
      } else {
        Scaling112(lines);
      }
    }

    /** sensorScaling on the MT9D111. */
    method Scaling111(lines: int)
      modifies this`bus
      ensures bus == old(bus) + Mt9d111.Frames(Mt9d111.Scaling(lines))
    {
      var mode: u16 := if lines == 1200 then 0x02 else 0x00;
      var cmd: u16 := if lines == 1200 then 0x02 else 0x01;
      ghost var start := bus;
      WriteVar111(SEQ_MODE, mode);
      WriteVar111(SEQ_CMD, cmd);
      ghost var a := VarWrite(Mt9d111.MCU_VARS, SEQ_MODE, mode);
      ghost var b := VarWrite(Mt9d111.MCU_VARS, SEQ_CMD, cmd);
      assert bus == (start + Mt9d111.Frames(a)) + Mt9d111.Frames(b);
      Mt9d111.FramesAppend(a, b);
      assert Mt9d111.Scaling(lines) == a + b;
      assert (start + Mt9d111.Frames(a)) + Mt9d111.Frames(b) == start + (Mt9d111.Frames(a) + Mt9d111.Frames(b));
    }

    /** sensorScaling on the MT9D112. */
    method Scaling112(lines: int)
      modifies this`bus
      ensures bus == old(bus) + Mt9d112.Frames(Mt9d112.Scaling(lines))
    {
      var mode: u16 := if lines == 1200 then 0x02 else 0x00;
      var cmd: u16 := if lines == 1200 then 0x02 else 0x01;
      ghost var start := bus;
      WriteVar112(SEQ_MODE, mode);
      WriteVar112(SEQ_CMD, cmd);
      ghost var a := VarWrite(Mt9d112.MCU_VARS, SEQ_MODE, mode);
      ghost var b := VarWrite(Mt9d112.MCU_VARS, SEQ_CMD, cmd);
      assert bus == (start + Mt9d112.Frames(a)) + Mt9d112.Frames(b);
      Mt9d112.FramesAppend(a, b);
      assert Mt9d112.Scaling(lines) == a + b;
      assert (start + Mt9d112.Frames(a)) + Mt9d112.Frames(b) == start + (Mt9d112.Frames(a) + Mt9d112.Frames(b));
    }

    /** sensorButton: the auto-function write for the sensor the flag selects, after page 1 on the MT9D111. */
    method Button(value: int)
      modifies this`bus
      ensures bus == old(bus) + Frames(mt9d111, if mt9d111 then Mt9d111.Button(value) else Mt9d112.Button(value))
    {
      var auto: u16 := if value != 0 then 0x21 else 0;
      if mt9d111 {
        Button111(value);
      } else {
        WriteVar112(SEQ_AUTO, auto);
      }
    }

    /** sensorButton on the MT9D111: page 1, then the auto functions. */
    method Button111(value: int)
      modifies this`bus
      ensures bus == old(bus) + Mt9d111.Frames(Mt9d111.Button(value))
    {
      var auto: u16 := if value != 0 then 0x21 else 0;
      ghost var start := bus;
      WriteReg111(Mt9d111.PAGE_REG, 1);
      WriteVar111(SEQ_AUTO, auto);
      ghost var a := [RegWrite(Mt9d111.PAGE_REG, 1)];
      ghost var b := VarWrite(Mt9d111.MCU_VARS, SEQ_AUTO, auto);
      assert bus == (start + Mt9d111.Frames(a)) + Mt9d111.Frames(b);
      Mt9d111.FramesAppend(a, b);
      assert (start + Mt9d111.Frames(a)) + Mt9d111.Frames(b) == start + (Mt9d111.Frames(a) + Mt9d111.Frames(b));
    }

    /** sensorFocus: the MT9D111 lens drive; nothing at all on the MT9D112. */
    method Focus(value: int)
      modifies this`bus
      ensures bus == old(bus) + Frames(mt9d111, if mt9d111 then Mt9d111.Focus(value) else Mt9d112.Focus(value))
    {
      if mt9d111 {
        Focus111(value);
      }
    }

    /** sensorFocus on the MT9D111: page 1, then GPIO1 off, or on with the value clamped to 254 as its PWM on time. */
    method Focus111(value: int)
      modifies this`bus
      ensures bus == old(bus) + Mt9d111.Frames(Mt9d111.Focus(value))
    {
      WriteReg111(Mt9d111.PAGE_REG, 1);
      FocusDrive111(value);
      Mt9d111.FramesAppend([RegWrite(Mt9d111.PAGE_REG, 1)], Mt9d111.FocusDrive(value));
    }

    /** The part of sensorFocus on the MT9D111 after the first page write. */
    method FocusDrive111(value: int)
      modifies this`bus
      ensures bus == old(bus) + Mt9d111.Frames(Mt9d111.FocusDrive(value))
    {
      if value <= 1 {
        GpioWrites111(0x00, 0);
      } else {
        var v := value;
        if v > 254 {
          v := 254;
        }
        FocusOn111(v);
      }
    }

    /** The lens drive on: page 1 again, then GPIO1 enabled with the clamped value as its on time. */
    method FocusOn111(v: int)
      requires 1 < v <= 254
      modifies this`bus
      ensures bus == old(bus) + Mt9d111.Frames([RegWrite(Mt9d111.PAGE_REG, 1)] + Mt9d111.GpioWrites(0x02, v))
    {
      ghost var start := bus;
      WriteReg111(Mt9d111.PAGE_REG, 1);
      GpioWrites111(0x02, v);
      ghost var page := Mt9d111.Frames([RegWrite(Mt9d111.PAGE_REG, 1)]);
      ghost var gpio := Mt9d111.Frames(Mt9d111.GpioWrites(0x02, v));
      assert bus == (start + page) + gpio;
      Mt9d111.FramesAppend([RegWrite(Mt9d111.PAGE_REG, 1)], Mt9d111.GpioWrites(0x02, v));
      assert (start + page) + gpio == start + (page + gpio);
    }

    /** The three GPIO1 variable writes of sensorFocus on the MT9D111. */
    method GpioWrites111(enable: u16, on: int)
      requires 0 <= on <= 255
      modifies this`bus
      ensures bus == old(bus) + Mt9d111.Frames(Mt9d111.GpioWrites(enable, on))
    {
      WriteVar111(Mt9d111.GPIO_DATA, enable);
      WriteVar111(Mt9d111.GPIO_OFF_TIME, 255 - on);
      WriteVar111(Mt9d111.GPIO_ON_TIME, on);
      var a := VarWrite(Mt9d111.MCU_VARS, Mt9d111.GPIO_DATA, enable);
      var b := VarWrite(Mt9d111.MCU_VARS, Mt9d111.GPIO_OFF_TIME, 255 - on);
      var c := VarWrite(Mt9d111.MCU_VARS, Mt9d111.GPIO_ON_TIME, on);
      Mt9d111.FramesAppend(a, b);
      Mt9d111.FramesAppend(a + b, c);
    }

    /**
     * sensorInit without its I2C set-up and register tables: page 0, read
     * the MT9D111 identification, set the flag from it, and when it is not
     * an MT9D111 read the MT9D112 identification. The result says which
     * initialisation table follows.
     */
    method Init(ok111: bool, reply111: seq<byte>, ok112: bool, reply112: seq<byte>) returns (found: Detected)
      requires |reply111| == 2 && |reply112| == 2
      modifies this
      ensures mt9d111 <==> ReadValue(ok111, reply111) == MT9D111_ID
      ensures found == Detect(ReadValue(ok111, reply111), ReadValue(ok112, reply112))
      ensures bus == old(bus) + [Mt9d111.WriteOp(RegWrite(0xF0, 0)), Mt9d111.ReadOp(0)]
                    + (if mt9d111 then [] else [Mt9d112.ReadOp(MT9D112_ID_REG)])
    {
      WriteReg111(0xF0, 0);
      var value := ReadReg111(0, ok111, reply111);
      mt9d111 := value == MT9D111_ID;
      if mt9d111 {
        found := Found111;
      } else {
        var value112 := ReadReg112(MT9D112_ID_REG, ok112, reply112);
        if value112 == MT9D112_ID {
          found := Found112;
        } else {
          found := NoSensor;
        }
      }
    }
  }
}
