/**
 * The logic-analyser firmware: GPIF data streamed to the bulk IN endpoint
 * 0x81 through an automatic DMA channel, a vendor interface to the sensor's
 * registers over EP 0, and the push button switching the sensor's automatic
 * functions. The SDK calls are recorded as actions with their arguments; the
 * link speed, the sensor reply and the data a host sends on EP 0 are
 * parameters. Each callback is one atomic step.
 */
module Analyser {
  import opened Bytes
  import opened UsbSetup
  import opened Wrappers
  import Mt9dSensor
  import Mt9d111
  import Mt9d112
  import SensorBus

  const BUTTON_GPIO: byte := 45
  const EP_CONSUMER: byte := 0x81

  /** The DMA channel from the GPIF to the endpoint: four buffers of 16 KiB. */
  const DMA_BUF_SIZE: nat := 16384
  const DMA_BUF_COUNT: nat := 4

  /** glEp0Buffer. */
  const EP0_BUF_SIZE: nat := 4096

  /** The wMaxPacketSize of the bulk endpoint in the full-, high- and super-speed configuration descriptors. */
  const FS_MAX_PACKET: nat := 0x0040
  const HS_MAX_PACKET: nat := 0x0200
  const SS_MAX_PACKET: nat := 0x0400
  /** bMaxBurst of the super-speed endpoint companion descriptor: one less than the packets in a burst. */
  const SS_MAX_BURST: nat := 15

  /** The vendor requests. */
  const VR_STREAMER: byte := 0xA0
  const VR_READ_REG: byte := 0xAD
  const VR_WRITE_REG: byte := 0xAE
  const VR_START_STREAM: byte := 0xAF

  /** The endpoint's packet size and burst length. */
  datatype EpShape = EpShape(packetSize: nat, burst: nat)

  /** appStart's speed switch: 64 bytes and bursts of one unless the speed says otherwise. */
  function PacketConfig(speed: Speed): (c: EpShape)
  {
    match speed
    case FullSpeed => EpShape(64, 1)
    case HighSpeed => EpShape(512, 1)
    case SuperSpeed => EpShape(1024, 16)
    case NotConnected => EpShape(64, 1)
  }

  /**
   * The endpoint is configured as the descriptor for the speed announces it:
   * the packet size is the descriptor's wMaxPacketSize and a super-speed
   * burst is bMaxBurst + 1 packets. A burst never exceeds one DMA buffer, and
   * at super speed it fills one exactly.
   */
  lemma PacketConfigMatchesDescriptors(speed: Speed)
    ensures var c := PacketConfig(speed);
      && (speed.FullSpeed? || speed.NotConnected? ==> c == EpShape(FS_MAX_PACKET, 1))
      && (speed.HighSpeed? ==> c == EpShape(HS_MAX_PACKET, 1))
      && (speed.SuperSpeed? ==> c == EpShape(SS_MAX_PACKET, SS_MAX_BURST + 1))
      && c.packetSize * c.burst <= DMA_BUF_SIZE
      && (speed.SuperSpeed? <==> c.packetSize * c.burst == DMA_BUF_SIZE)
  {
  }

  /** SDK calls and display lines, in the order the firmware makes them. */
  datatype AnalyserAction =
    | Line2(text: string)
    | Line3(caption: string, value: int)
    | SetEpConfig(ep: byte, enable: bool, shape: EpShape)
    | FlushEp(ep: byte)
    | ResetEp(ep: byte)
    | ChannelCreate(size: nat, count: nat)
    | ChannelSetXfer
    | ChannelReset
    | ChannelDestroy
    | GpifLoad
    | GpifStart
    | GpifDisable
    | ClearStall(ep: byte)
    | Ep0Ack
    | Ep0Stall
    | Ep0Send(data: seq<byte>)
    | Ep0Receive(length: nat)

  /** appStart's calls: the endpoint configured for the speed and flushed, the channel created and armed, the GPIF loaded and started. */
  function StartActions(speed: Speed): seq<AnalyserAction>
  {
    [Line2("appStart"), SetEpConfig(EP_CONSUMER, true, PacketConfig(speed)), FlushEp(EP_CONSUMER),
     ChannelCreate(DMA_BUF_SIZE, DMA_BUF_COUNT), ChannelSetXfer, GpifLoad, GpifStart]
  }

  /** appStop's calls: GPIF off, channel destroyed, endpoint flushed and disabled. */
  const STOP_ACTIONS: seq<AnalyserAction> :=
    [Line2("appStop"), GpifDisable, ChannelDestroy, FlushEp(EP_CONSUMER), SetEpConfig(EP_CONSUMER, false, EpShape(0, 0))]

  /** appClear's calls: the channel reset, the endpoint flushed and reset, the channel armed again. */
  const CLEAR_ACTIONS: seq<AnalyserAction> :=
    [Line2("appClear"), ChannelReset, FlushEp(EP_CONSUMER), ResetEp(EP_CONSUMER), ChannelSetXfer]

  /** The USB events the callback distinguishes. */
  datatype AnalyserEvent = Connect | SetConfiguration | BusReset | Disconnect | OtherEvent

  /** The calls of USBEventCallback for an event, given whether the application was active. */
  function EventActions(active: bool, ev: AnalyserEvent, speed: Speed): seq<AnalyserAction>
  {
    match ev
    case Connect => [Line2("CONNECT")]
    case SetConfiguration => [Line2("SETCONF")] + (if active then STOP_ACTIONS else []) + StartActions(speed)
    case BusReset => (if active then STOP_ACTIONS else []) + [Line2("RESET")]
    case Disconnect => (if active then STOP_ACTIONS else []) + [Line2("DISCONNECT")]
    case OtherEvent => []
  }

  /** appActive after an event: set by SET_CONFIGURATION, cleared by reset and disconnect. */
  function ActiveAfter(active: bool, ev: AnalyserEvent): (a: bool)
    ensures ev.SetConfiguration? ==> a
    ensures ev.BusReset? || ev.Disconnect? ==> !a
    ensures ev.Connect? || ev.OtherEvent? ==> a == active
  {
    if ev.SetConfiguration? then true
    else if ev.BusReset? || ev.Disconnect? then false
    else active
  }

  /** glForceLinkU2 after an event: cleared by reset and disconnect, otherwise kept. */
  function ForceAfterEvent(force: bool, ev: AnalyserEvent): (f: bool)
    ensures f ==> force
    ensures f <==> force && !(ev.BusReset? || ev.Disconnect?)
  {
    if ev.BusReset? || ev.Disconnect? then false else force
  }

  /**
   * A stop happens only when the application was active and the event sets
   * the configuration, resets or disconnects, and a start exactly for
   * SET_CONFIGURATION, after the stop.
   */
  lemma EventStopsAndStarts(active: bool, ev: AnalyserEvent, speed: Speed)
    ensures var acts := EventActions(active, ev, speed);
      && (ev.SetConfiguration? ==> acts == [Line2("SETCONF")] + (if active then STOP_ACTIONS else []) + StartActions(speed))
      && (!active ==> forall a :: a in acts ==> a != Line2("appStop"))
      && (!ev.SetConfiguration? ==> forall a :: a in acts ==> a != Line2("appStart"))
  {
    assert Line2("appStop") in STOP_ACTIONS;
  }

  /** SET_FEATURE or CLEAR_FEATURE to an interface with wValue 0: FUNCTION_SUSPEND. */
  predicate IsFunctionSuspend(s: Setup)
  {
    RequestType(s.bmRequestType) == STANDARD_RQT && Target(s.bmRequestType) == TARGET_INTF
    && (s.bRequest == SC_SET_FEATURE || s.bRequest == SC_CLEAR_FEATURE) && s.wValue == 0
  }

  /** CLEAR_FEATURE(ENDPOINT_HALT) to any endpoint. */
  predicate IsClearHalt(s: Setup)
  {
    RequestType(s.bmRequestType) == STANDARD_RQT && Target(s.bmRequestType) == TARGET_ENDPT
    && s.bRequest == SC_CLEAR_FEATURE && s.wValue == EP_HALT
  }

  predicate IsVendor(s: Setup)
  {
    RequestType(s.bmRequestType) == VENDOR_RQT
  }

  /** The requests USBSetupCallback reports as handled. */
  predicate SetupHandled(active: bool, s: Setup)
  {
    || (IsVendor(s) && (s.bRequest == VR_READ_REG || s.bRequest == VR_WRITE_REG || s.bRequest == VR_START_STREAM))
    || IsFunctionSuspend(s)
    || (IsClearHalt(s) && active && s.wIndex == EP_CONSUMER as u16)
  }

  /** glForceLinkU2 after a setup request: only an accepted FUNCTION_SUSPEND sets it, to whether it is SET_FEATURE. */
  function ForceAfterSetup(active: bool, force: bool, s: Setup): bool
  {
    if IsFunctionSuspend(s) && active then s.bRequest == SC_SET_FEATURE else force
  }

  /** The calls of the standard requests the callback handles, given whether the application is active. */
  function StandardActions(active: bool, s: Setup): seq<AnalyserAction>
  {
    (if IsFunctionSuspend(s) then [Line2("interface"), if active then Ep0Ack else Ep0Stall] else [])
    + (if IsClearHalt(s) then
         [Line2("clear feature")]
         + (if active && s.wIndex == EP_CONSUMER as u16 then CLEAR_ACTIONS + [ClearStall(EP_CONSUMER), Ep0Ack] else [])
       else [])
  }

  /**
   * FUNCTION_SUSPEND (section 9.4.9 of the USB 3.1 specification) is always
   * handled: while active it is acknowledged and glForceLinkU2 becomes
   * whether it was SET_FEATURE; while inactive it is stalled and the flag is
   * left alone.
   */
  lemma FunctionSuspendAnswer(active: bool, force: bool, s: Setup)
    requires IsFunctionSuspend(s)
    ensures SetupHandled(active, s)
    ensures StandardActions(active, s) == [Line2("interface"), if active then Ep0Ack else Ep0Stall]
    ensures active ==> (ForceAfterSetup(active, force, s) <==> s.bRequest == SC_SET_FEATURE)
    ensures !active ==> ForceAfterSetup(active, force, s) == force
  {
  }

  /** CLEAR_FEATURE(halt) is handled exactly while active and for endpoint 0x81, where it recovers the endpoint and acknowledges. */
  lemma ClearHaltAnswer(active: bool, force: bool, s: Setup)
    requires IsClearHalt(s)
    ensures SetupHandled(active, s) <==> active && s.wIndex == EP_CONSUMER as u16
    ensures StandardActions(active, s) == [Line2("clear feature")]
      + (if SetupHandled(active, s) then CLEAR_ACTIONS + [ClearStall(EP_CONSUMER), Ep0Ack] else [])
    ensures ForceAfterSetup(active, force, s) == force
  {
  }

  /** The register writes of sensorButton on the sensor the flag selects. */
  function ButtonWrites(is111: bool, value: int): seq<SensorBus.RegWrite>
  {
    if is111 then Mt9d111.Button(value) else Mt9d112.Button(value)
  }

  /** The variable pair of the sensor the flag selects. */
  function SensorVars(is111: bool): SensorBus.VarPair
  {
    if is111 then Mt9d111.MCU_VARS else Mt9d112.MCU_VARS
  }

  /** The register writes of one wake-up of the thread: sensorButton(1) for a pending press, then sensorButton(0) for a pending release. */
  function WakeWrites(is111: bool, down: bool, up: bool): seq<SensorBus.RegWrite>
  {
    (if down then ButtonWrites(is111, 1) else []) + (if up then ButtonWrites(is111, 0) else [])
  }

  /**
   * The sensor's automatic functions after a wake-up: on (0x21) after a
   * press alone, off after a release, and off when both were pending, since
   * the release is handled second.
   */
  lemma {:induction false} WakeEffect(s: SensorBus.SensorRegs, is111: bool, down: bool, up: bool)
    requires down || up
    ensures var r := SensorBus.Apply(s, SensorVars(is111), WakeWrites(is111, down, up));
      r.vars == s.vars[SensorBus.SEQ_AUTO := if up then 0 else 0x21]
  {
    var pair := SensorVars(is111);
    var a: seq<SensorBus.RegWrite> := if down then ButtonWrites(is111, 1) else [];
    var b: seq<SensorBus.RegWrite> := if up then ButtonWrites(is111, 0) else [];
    SensorBus.ApplyAppend(s, pair, a, b);
    var s1 := SensorBus.Apply(s, pair, a);
    if down {
      if is111 { Mt9d111.ButtonEffect(s, 1); } else { Mt9d112.ButtonEffect(s, 1); }
    }
    if up {
      if is111 { Mt9d111.ButtonEffect(s1, 0); } else { Mt9d112.ButtonEffect(s1, 0); }
    }
  }

  /** The transactions of a wake-up are those of the press, then those of the release. */
  lemma WakeFrames(is111: bool, down: bool, up: bool)
    ensures Mt9dSensor.Frames(is111, WakeWrites(is111, down, up))
      == Mt9dSensor.Frames(is111, if down then ButtonWrites(is111, 1) else [])
       + Mt9dSensor.Frames(is111, if up then ButtonWrites(is111, 0) else [])
  {
    var a: seq<SensorBus.RegWrite> := if down then ButtonWrites(is111, 1) else [];
    var b: seq<SensorBus.RegWrite> := if up then ButtonWrites(is111, 0) else [];
    if is111 {
      Mt9d111.FramesAppend(a, b);
    } else {
      Mt9d112.FramesAppend(a, b);
    }
  }

  /** What CyU3PUsbGetEP0Data leaves in the EP 0 buffer: the bytes received over the start of what was there. */
  function Received(buf: seq<byte>, host: seq<byte>): (r: seq<byte>)
    requires |host| <= |buf|
    ensures |r| == |buf| && r[..|host|] == host && r[|host|..] == buf[|host|..]
  {
    host + buf[|host|..]
  }

  /** The transaction the write-register request puts on the bus, for the bytes in the buffer. */
  function WriteRegOp(is111: bool, wValue: u16, d0: byte, d1: byte): SensorBus.I2cOp
  {
    if is111 then Mt9d111.I2cWrite(HiByte(wValue), LoByte(wValue), d0, d1)
    else Mt9d112.I2cWrite(HiByte(wValue), LoByte(wValue), d0, d1)
  }

  /**
   * The write-register request reaches the register wValue with the value
   * the host sent high byte first: on the MT9D112 all 16 address bits, on the
   * MT9D111 the low byte, which is its register number.
   */
  lemma WriteRegReaches(wValue: u16, d0: byte, d1: byte)
    ensures Mt9d112.DecodeWrite(WriteRegOp(false, wValue, d0, d1)) == Some(SensorBus.RegWrite(wValue, Pack16(d0, d1)))
    ensures Mt9d111.DecodeWrite(WriteRegOp(true, wValue, d0, d1)) == Some(SensorBus.RegWrite(wValue % 0x100, Pack16(d0, d1)))
  {
    Split16(wValue);
  }

  /** The transaction and the reply of the read-register request. */
  function ReadRegResult(is111: bool, wValue: u16, ok: bool, reply: seq<byte>): SensorBus.BusRead
    requires |reply| == 2
  {
    if is111 then Mt9d111.I2cRead(HiByte(wValue), LoByte(wValue), ok, reply)
    else Mt9d112.I2cRead(HiByte(wValue), LoByte(wValue), ok, reply)
  }

  /** The read-register request reads the register wValue (its low byte on the MT9D111) and returns the sensor's reply, or zeros on a bus error. */
  lemma ReadRegReturns(is111: bool, wValue: u16, ok: bool, reply: seq<byte>)
    requires |reply| == 2
    ensures is111 ==> Mt9d111.DecodeRead(ReadRegResult(is111, wValue, ok, reply).op) == Some(wValue % 0x100)
    ensures !is111 ==> Mt9d112.DecodeRead(ReadRegResult(is111, wValue, ok, reply).op) == Some(wValue)
    ensures ReadRegResult(is111, wValue, ok, reply).buf == if ok then reply else [0, 0]
  {
    Split16(wValue);
  }

  class AnalyserDevice {
    /** appActive. */
    var active: bool
    /** glForceLinkU2: the link is to be pushed into U2. */
    var forceLinkU2: bool
    /** The button flags of appEvent. */
    var buttonDown: bool
    var buttonUp: bool
    /** SDK calls and display lines so far. */
    var log: seq<AnalyserAction>
    /** glEp0Buffer. */
    const ep0Buffer: array<byte>
    /** The sensor that I2C_Read, I2C_Write and sensorButton drive. */
    const sensor: Mt9dSensor.DualSensor

    /** The zero-initialised statics. */
    constructor (sensor: Mt9dSensor.DualSensor)
      ensures this.sensor == sensor && fresh(ep0Buffer) && ep0Buffer.Length == EP0_BUF_SIZE
      ensures forall i :: 0 <= i < ep0Buffer.Length ==> ep0Buffer[i] == 0
      ensures !active && !forceLinkU2 && !buttonDown && !buttonUp && log == []
    {
      this.sensor := sensor;
      ep0Buffer := new byte[EP0_BUF_SIZE](i => 0);
      active, forceLinkU2, buttonDown, buttonUp, log := false, false, false, false, [];
    }

    /** appStart: the endpoint shaped for the speed, the channel and the GPIF started; active afterwards. */
    method Start(speed: Speed)
      modifies this`active, this`log
      ensures active && log == old(log) + StartActions(speed)
    {
      log := log + [Line2("appStart")];
      var size: nat := 64;
      var burstLen: nat := 1;
      match speed {
        case FullSpeed => size := 64;
        case HighSpeed => size := 512;
        case SuperSpeed => size, burstLen := 1024, 16;
        case NotConnected =>
      }
      log := log + [SetEpConfig(EP_CONSUMER, true, EpShape(size, burstLen))];
      log := log + [FlushEp(EP_CONSUMER)];
      log := log + [ChannelCreate(DMA_BUF_SIZE, DMA_BUF_COUNT)];
      log := log + [ChannelSetXfer];
      log := log + [GpifLoad, GpifStart];
      active := true;
    }

    /** appStop: inactive first, then the GPIF, channel and endpoint shut down. */
    method Stop()
      modifies this`active, this`log
      ensures !active && log == old(log) + STOP_ACTIONS
    {
      log := log + [Line2("appStop")];
      active := false;
      log := log + [GpifDisable];
      log := log + [ChannelDestroy];
      log := log + [FlushEp(EP_CONSUMER)];
      log := log + [SetEpConfig(EP_CONSUMER, false, EpShape(0, 0))];
    }

    /** `if (appActive) appStop ();`. */
    method StopIfActive()
      modifies this`active, this`log
      ensures !active && log == old(log) + (if old(active) then STOP_ACTIONS else [])
    {
      if active {
        Stop();
      }
    }

    /** USBEventCallback: SET_CONFIGURATION restarts the application; reset and disconnect clear glForceLinkU2 and stop it if active. */
    method UsbEventCallback(ev: AnalyserEvent, speed: Speed)
      modifies this`active, this`forceLinkU2, this`log
      ensures log == old(log) + EventActions(old(active), ev, speed)
      ensures active == ActiveAfter(old(active), ev)
      ensures forceLinkU2 == ForceAfterEvent(old(forceLinkU2), ev)
    {
      match ev {
        case Connect =>
          log := log + [Line2("CONNECT")];
        case SetConfiguration =>
          ghost var stop: seq<AnalyserAction> := if active then STOP_ACTIONS else [];
          log := log + [Line2("SETCONF")];
          StopIfActive();
          Start(speed);
          AppendAssoc(old(log), [Line2("SETCONF")], stop);
          AppendAssoc(old(log), [Line2("SETCONF")] + stop, StartActions(speed));
        case BusReset =>
          ghost var stop: seq<AnalyserAction> := if active then STOP_ACTIONS else [];
          forceLinkU2 := false;
          StopIfActive();
          log := log + [Line2("RESET")];
          AppendAssoc(old(log), stop, [Line2("RESET")]);
        case Disconnect =>
          ghost var stop: seq<AnalyserAction> := if active then STOP_ACTIONS else [];
          forceLinkU2 := false;
          StopIfActive();
          log := log + [Line2("DISCONNECT")];
          AppendAssoc(old(log), stop, [Line2("DISCONNECT")]);
        case OtherEvent =>
      }
    }

    /** The standard half of USBSetupCallback: FUNCTION_SUSPEND and CLEAR_FEATURE(halt). */
    method StandardRequest(s: Setup) returns (handled: bool)
      requires RequestType(s.bmRequestType) == STANDARD_RQT
      modifies this`forceLinkU2, this`log
      ensures handled == SetupHandled(active, s)
      ensures log == old(log) + StandardActions(active, s)
      ensures forceLinkU2 == ForceAfterSetup(active, old(forceLinkU2), s)
    {
      handled := false;
      var bTarget := Target(s.bmRequestType);
      if bTarget == TARGET_INTF && (s.bRequest == SC_SET_FEATURE || s.bRequest == SC_CLEAR_FEATURE) && s.wValue == 0 {
        log := log + [Line2("interface")];
        if active {
          log := log + [Ep0Ack];
          forceLinkU2 := s.bRequest == SC_SET_FEATURE;
        } else {
          log := log + [Ep0Stall];
        }
        handled := true;
      }
      if bTarget == TARGET_ENDPT && s.bRequest == SC_CLEAR_FEATURE && s.wValue == EP_HALT {
        log := log + [Line2("clear feature")];
        if active {
          if s.wIndex == EP_CONSUMER as u16 {
            log := log + CLEAR_ACTIONS;
            log := log + [ClearStall(EP_CONSUMER)];
            log := log + [Ep0Ack];
            handled := true;
          }
        }
      }
    }

    /** CyU3PUsbGetEP0Data: the host's bytes over the start of the EP 0 buffer. */
    method ReceiveEp0(length: nat, host: seq<byte>)
      requires |host| <= length && |host| <= ep0Buffer.Length
      modifies ep0Buffer, this`log
      ensures ep0Buffer[..] == Received(old(ep0Buffer[..]), host)
      ensures log == old(log) + [Ep0Receive(length)]
    {
      forall i | 0 <= i < |host| {
        ep0Buffer[i] := host[i];
      }
      log := log + [Ep0Receive(length)];
    }

    /** Vendor request 0xAD: I2C_Read of register wValue into the EP 0 buffer, whose first two bytes are sent. */
    method ReadRegRequest(wValue: u16, ok: bool, reply: seq<byte>)
      requires |reply| == 2 && ep0Buffer.Length >= 2
      modifies ep0Buffer, this`log, sensor`bus
      ensures var r := ReadRegResult(sensor.mt9d111, wValue, ok, reply);
        && sensor.bus == old(sensor.bus) + [r.op]
        && ep0Buffer[..] == Received(old(ep0Buffer[..]), r.buf)
        && log == old(log) + [Ep0Send(r.buf)]
    {
      var buf := sensor.I2cRead(HiByte(wValue), LoByte(wValue), ok, reply);
      ep0Buffer[0], ep0Buffer[1] := buf[0], buf[1];
      assert ep0Buffer[..] == Received(old(ep0Buffer[..]), buf);
      log := log + [Ep0Send(ep0Buffer[..2])];
    }

    /** Vendor request 0xAE: the host's data received into the EP 0 buffer, whose first two bytes are then written to register wValue. */
    method WriteRegRequest(wValue: u16, wLength: nat, host: seq<byte>)
      requires |host| <= wLength && |host| <= ep0Buffer.Length && ep0Buffer.Length >= 2
      modifies ep0Buffer, this`log, sensor`bus
      ensures var buf := Received(old(ep0Buffer[..]), host);
        && ep0Buffer[..] == buf
        && sensor.bus == old(sensor.bus) + [WriteRegOp(sensor.mt9d111, wValue, buf[0], buf[1])]
        && log == old(log) + [Ep0Receive(wLength)]
    {
      ReceiveEp0(wLength, host);
      sensor.I2cWrite(HiByte(wValue), LoByte(wValue), ep0Buffer[0], ep0Buffer[1]);
    }

    /**
     * The vendor half of USBSetupCallback: read a sensor register into the
     * EP 0 buffer and send its two bytes; receive two bytes and write them to
     * a sensor register; receive the stream request; show any other request.
     * `ok` and `reply` are the outcome of the I2C read, `host` the data the
     * host sends.
     */
    method VendorRequest(s: Setup, ok: bool, reply: seq<byte>, host: seq<byte>) returns (handled: bool)
      requires IsVendor(s)
      requires |reply| == 2 && |host| <= s.wLength as int && |host| <= ep0Buffer.Length && ep0Buffer.Length >= 2
      modifies ep0Buffer, this`log, sensor`bus
      ensures handled == SetupHandled(active, s)
      ensures s.bRequest == VR_READ_REG ==>
        var r := ReadRegResult(sensor.mt9d111, s.wValue, ok, reply);
        && sensor.bus == old(sensor.bus) + [r.op]
        && ep0Buffer[..] == Received(old(ep0Buffer[..]), r.buf)
        && log == old(log) + [Ep0Send(r.buf)]
      ensures s.bRequest == VR_WRITE_REG ==>
        var buf := Received(old(ep0Buffer[..]), host);
        && ep0Buffer[..] == buf
        && sensor.bus == old(sensor.bus) + [WriteRegOp(sensor.mt9d111, s.wValue, buf[0], buf[1])]
        && log == old(log) + [Ep0Receive(s.wLength as int)]
      ensures s.bRequest == VR_START_STREAM ==>
        && ep0Buffer[..] == Received(old(ep0Buffer[..]), host)
        && sensor.bus == old(sensor.bus)
        && log == old(log) + [Line2("vStream"), Ep0Receive(s.wLength as int)]
      ensures s.bRequest !in {VR_READ_REG, VR_WRITE_REG, VR_START_STREAM} ==>
        && ep0Buffer[..] == old(ep0Buffer[..]) && sensor.bus == old(sensor.bus)
        && log == old(log) + (if s.bRequest == VR_STREAMER then [] else [Line3("vendor", s.bRequest as int)])
    {
      handled := false;
      if s.bRequest == VR_STREAMER {
      } else if s.bRequest == VR_READ_REG {
        ReadRegRequest(s.wValue, ok, reply);
        handled := true;
      } else if s.bRequest == VR_WRITE_REG {
        WriteRegRequest(s.wValue, s.wLength as int, host);
        handled := true;
      } else if s.bRequest == VR_START_STREAM {
        log := log + [Line2("vStream")];
        ReceiveEp0(s.wLength as int, host);
        handled := true;
      } else {
        log := log + [Line3("vendor", s.bRequest as int)];
      }
    }

    /** USBSetupCallback: vendor requests, then the standard ones; class requests are not handled. */
    method SetupCallback(setupdat0: u32, setupdat1: u32, ok: bool, reply: seq<byte>, host: seq<byte>) returns (handled: bool)
      requires var s := Decode(setupdat0, setupdat1);
        |reply| == 2 && |host| <= s.wLength as int && |host| <= ep0Buffer.Length && ep0Buffer.Length >= 2
      modifies ep0Buffer, this`log, this`forceLinkU2, sensor`bus
      ensures var s := Decode(setupdat0, setupdat1);
        && handled == SetupHandled(active, s)
        && active == old(active)
        && forceLinkU2 == (if IsVendor(s) then old(forceLinkU2) else ForceAfterSetup(active, old(forceLinkU2), s))
        && (!IsVendor(s) ==> log == old(log) + StandardActions(active, s) && sensor.bus == old(sensor.bus))
        && (!IsVendor(s) ==> ep0Buffer[..] == old(ep0Buffer[..]))
      ensures var s := Decode(setupdat0, setupdat1);
        IsVendor(s) && s.bRequest == VR_READ_REG ==>
          var r := ReadRegResult(sensor.mt9d111, s.wValue, ok, reply);
          && sensor.bus == old(sensor.bus) + [r.op]
          && ep0Buffer[..] == Received(old(ep0Buffer[..]), r.buf)
          && log == old(log) + [Ep0Send(r.buf)]
      ensures var s := Decode(setupdat0, setupdat1);
        IsVendor(s) && s.bRequest == VR_WRITE_REG ==>
          var buf := Received(old(ep0Buffer[..]), host);
          && ep0Buffer[..] == buf
          && sensor.bus == old(sensor.bus) + [WriteRegOp(sensor.mt9d111, s.wValue, buf[0], buf[1])]
          && log == old(log) + [Ep0Receive(s.wLength as int)]
      ensures var s := Decode(setupdat0, setupdat1);
        IsVendor(s) && s.bRequest == VR_START_STREAM ==>
          && ep0Buffer[..] == Received(old(ep0Buffer[..]), host)
          && sensor.bus == old(sensor.bus)
          && log == old(log) + [Line2("vStream"), Ep0Receive(s.wLength as int)]
      ensures var s := Decode(setupdat0, setupdat1);
        IsVendor(s) && s.bRequest !in {VR_READ_REG, VR_WRITE_REG, VR_START_STREAM} ==>
          && ep0Buffer[..] == old(ep0Buffer[..]) && sensor.bus == old(sensor.bus)
          && log == old(log) + (if s.bRequest == VR_STREAMER then [] else [Line3("vendor", s.bRequest as int)])
    {
      var s := Decode(setupdat0, setupdat1);
      var bType := RequestType(s.bmRequestType);
      handled := false;
      if bType == VENDOR_RQT {
        handled := VendorRequest(s, ok, reply, host);
      } else if bType == STANDARD_RQT {
        handled := StandardRequest(s);
      }
    }

    /** gpioInterruptCallback: a readable GPIO 45 sets the release flag when high, the press flag when low. */
    method GpioInterrupt(gpioId: byte, readOk: bool, pinHigh: bool)
      modifies this`buttonDown, this`buttonUp
      ensures buttonDown == (old(buttonDown) || (gpioId == BUTTON_GPIO && readOk && !pinHigh))
      ensures buttonUp == (old(buttonUp) || (gpioId == BUTTON_GPIO && readOk && pinHigh))
    {
      if gpioId == BUTTON_GPIO {
        if readOk {
          if pinHigh {
            buttonUp := true;
          } else {
            buttonDown := true;
          }
        }
      }
    }

    /**
     * One wake-up of appThreadFunc: the wait returns once a button flag is
     * set and takes both, and a press then a release are passed on to the
     * sensor in that order.
     */
    method ThreadWake(getOk: bool)
      requires buttonDown || buttonUp
      modifies this`buttonDown, this`buttonUp, sensor`bus
      ensures getOk ==> !buttonDown && !buttonUp
      ensures !getOk ==> buttonDown == old(buttonDown) && buttonUp == old(buttonUp)
      ensures sensor.bus == old(sensor.bus)
        + (if getOk then Mt9dSensor.Frames(sensor.mt9d111, WakeWrites(sensor.mt9d111, old(buttonDown), old(buttonUp))) else [])
    {
      if getOk {
        var down, up := buttonDown, buttonUp;
        buttonDown, buttonUp := false, false;
        ghost var is111 := sensor.mt9d111;
        ghost var start := sensor.bus;
        ghost var fa := Mt9dSensor.Frames(is111, if down then ButtonWrites(is111, 1) else []);
        ghost var fb := Mt9dSensor.Frames(is111, if up then ButtonWrites(is111, 0) else []);
        if down {
          sensor.Button(1);
        }
        assert sensor.bus == start + fa;
        if up {
          sensor.Button(0);
        }
        assert sensor.bus == start + fa + fb;
        WakeFrames(is111, down, up);
        AppendAssoc(start, fa, fb);
      }
    }
  }
}
