/**
 * The USB Video Class camera core (usbArmTrace/usbArmTrace.c): a video thread
 * that commits GPIF-produced DMA buffers to the bulk video endpoint and
 * restarts the GPIF state machine at every frame end, a control thread that
 * answers the UVC probe/commit negotiation, and the USB callbacks that start
 * and abort streaming.
 *
 * The file-static variables are fields of `UvcDevice`; the callbacks and one
 * pass of each thread's loop are its methods, each run as one atomic step.
 * Calls into the SDK (DMA, GPIF, endpoints, EP0) are recorded in a ghost log
 * of `Action`s; what those calls report back (a produced buffer, a commit
 * status, host data, the link speed) is a parameter. Each method is specified
 * by a pure transition function on `Globals`, about which the lemmas at the
 * end of the module are stated.
 */
module UvcStream {
  import opened Bytes
  import opened UsbSetup
  import opened Wrappers

  // UVC request codes and selectors (usbArmTrace.c:60-88)
  const SET_REQ_TYPE: byte := 0x21
  const GET_REQ_TYPE: byte := 0xA1
  const SET_INTF_REQ_TYPE: byte := 0x01
  const SET_CUR: byte := 0x01
  const GET_CUR: byte := 0x81
  const GET_MIN: byte := 0x82
  const GET_MAX: byte := 0x83
  const GET_LEN: byte := 0x85
  const GET_INFO: byte := 0x86
  const GET_DEF: byte := 0x87
  const CONTROL_INTERFACE: u16 := 0
  const STREAM_INTERFACE: u16 := 1
  const PROBE_CTRL: u16 := 0x0100
  const COMMIT_CTRL: u16 := 0x0200
  const MAX_PROBE_SETTING: byte := 26
  const MAX_PROBE_SETTING_ALIGNED: nat := 32
  const MAX_HEADER: nat := 12
  const EP_BULK_VID: byte := 0x83
  const BUTTON_GPIO: nat := 45
  /** A DMA buffer of this many bytes is full; anything else is a partial buffer. */
  const FULL_BUFFER_COUNT: nat := 16384 - 16

  /** Initial UVC payload header: length 12, bit field 0x8C. */
  const DefaultHeader: seq<byte> := [0x0C, 0x8C, 0, 0, 0, 0, 0, 0, 0, 0, 0, 0]
  /** Initial end-of-frame header: bit field 0x8E (EOF bit set). */
  const DefaultHeaderEof: seq<byte> := [0x0C, 0x8E, 0, 0, 0, 0, 0, 0, 0, 0, 0, 0]

  /** Probe control block at USB 2.0 speeds: 15 fps, max frame 0x096000, payload 16 KiB. */
  const Probe20: seq<byte> :=
    [0x00, 0x00, 0x01, 0x01, 0x2A, 0x2C, 0x0A, 0x00,
     0x00, 0x00, 0x00, 0x00, 0x00, 0x00, 0x00, 0x00, 0x00, 0x00,
     0x00, 0x60, 0x09, 0x00, 0x00, 0x40, 0x00, 0x00]
  /** Initial probe control block at super speed: 30 fps, max frame 0x3F4800, payload 16 KiB. */
  const Probe30Default: seq<byte> :=
    [0x00, 0x00, 0x01, 0x01, 0x15, 0x16, 0x05, 0x00,
     0x00, 0x00, 0x00, 0x00, 0x00, 0x00, 0x00, 0x00, 0x00, 0x00,
     0x00, 0x48, 0x3F, 0x00, 0x00, 0x40, 0x00, 0x00]

  /** The two DMA channel set-ups: UVC video to EP 3 (12-byte header,
      4-byte footer) and raw analyser data to EP 1 (no header, 16-byte footer). */
  datatype Channel = VideoChannel | AnalyserChannel

  /** SDK calls the core makes, in the order it makes them. */
  datatype Action =
    | GpifLoad | GpifStart | GpifSwitch | GpifDisable
    | DmaReset | DmaSetXfer | DmaCommit(count: nat) | DmaDestroy | DmaCreate(channel: Channel)
    | EpNak(ep: byte, nak: bool) | FlushEp(ep: byte) | ClearStall(ep: byte)
    | Ep0Stall | Ep0Ack | Ep0Send(data: seq<byte>) | Ep0Receive(length: nat)
    | I2cRead(hiAddr: byte, loAddr: byte) | I2cWrite(hiAddr: byte, loAddr: byte, hiData: byte, loData: byte)

  /** USB events the USB callback distinguishes. */
  datatype UsbEvent = Reset | Suspend | Disconnect | EpUnderrun | OtherEvent

  /**
   * The scalar file-static state. The six event-group bits are the first six
   * fields; `idleWaiting` is the video thread parked in its idle wait for
   * STREAM_EVENT; `request` holds the last setup packet's fields.
   */
  datatype Globals = Globals(
    streamEvent: bool, abortEvent: bool, controlEvent: bool, streamRequestEvent: bool,
    buttonDownEvent: bool, buttonUpEvent: bool,
    analyserMode: bool, streamingStarted: bool, clearFeatureRqtReceived: bool,
    usbSpeed: Speed, backFlowDetected: bool,
    gpifInitialized: bool, gotPartial: bool, hitFV: bool, prodCount: u16, consCount: u16,
    idleWaiting: bool, request: Setup)

  const InitialGlobals: Globals :=
    Globals(false, false, false, false, false, false, false, false, false, NotConnected, false,
            false, false, false, 0, 0, false, Setup(0, 0, 0, 0, 0))

  // ---------------------------------------------------------------------------
  // Arithmetic of the uint16 buffer counters and the header toggle

  /** `counter++` on a uint16_t: 0xFFFF wraps to 0. */
  function Inc16(x: u16): u16
  {
    if x == 0xFFFF then 0 else x + 1
  }

  /** `counter--` on a uint16_t: 0 wraps to 0xFFFF. */
  function Dec16(x: u16): u16
  {
    if x == 0 then 0xFFFF else x - 1
  }

  /** The two are the uint16_t arithmetic of the C code, and each undoes the other. */
  lemma CountersWrap(x: u16)
    ensures Inc16(x) == (x + 1) % 0x1_0000 && Dec16(x) == (x + 0xFFFF) % 0x1_0000
    ensures Dec16(Inc16(x)) == x && Inc16(Dec16(x)) == x
  {
  }

  /** `b ^= CY_FX_UVC_HEADER_FRAME_ID`: flips bit 0 and keeps bits 7..1. */
  function ToggleFrameId(b: byte): (r: byte)
    ensures r / 2 == b / 2 && r % 2 != b % 2
  {
    if b % 2 == 0 then b + 1 else b - 1
  }

  /** Header bytes after n frame ends: the bit field is 0x8C with the frame-ID bit equal to the parity of n. */
  function HeaderAfter(n: nat): seq<byte>
  {
    DefaultHeader[1 := 0x8C + n % 2]
  }

  /** Toggling the frame-ID bit of the header after n frame ends gives the header after n + 1. */
  lemma ToggleAdvancesHeader(n: nat)
    ensures HeaderAfter(n)[1 := ToggleFrameId(HeaderAfter(n)[1])] == HeaderAfter(n + 1)
  {
  }

  /** End-of-frame header after n frame ends: its bit field is overwritten by the normal header's at every frame end. */
  function EofHeaderAfter(n: nat): seq<byte>
  {
    if n == 0 then DefaultHeaderEof else HeaderAfter(n)
  }

  // ---------------------------------------------------------------------------
  // EP0 data buffers

  /** What `CyU3PUsbGetEP0Data` leaves in a buffer: the host's bytes over its prefix. */
  function Overlay(buf: seq<byte>, host: seq<byte>): (r: seq<byte>)
    ensures |r| == |buf|
    ensures forall i :: 0 <= i < |r| ==> r[i] == if i < |host| then host[i] else buf[i]
  {
    if |host| >= |buf| then host[..|buf|] else host + buf[|host|..]
  }

  /** The super-speed probe block after SET_CUR(PROBE): bytes 2..7 (format index,
      frame index, frame interval) come from the received block. */
  function MergeProbe(probe: seq<byte>, commit: seq<byte>): (r: seq<byte>)
    requires |probe| == MAX_PROBE_SETTING as nat && |commit| == MAX_PROBE_SETTING_ALIGNED
    ensures |r| == |probe|
    ensures forall i :: 0 <= i < |r| ==> r[i] == if 2 <= i < 8 then commit[i] else probe[i]
  {
    probe[..2] + commit[2..8] + probe[8..]
  }

  /** Shape every super-speed probe block keeps: only bytes 2..7 ever change. */
  predicate ProbeShaped(p: seq<byte>)
  {
    |p| == MAX_PROBE_SETTING as nat && p[..2] == Probe30Default[..2] && p[8..] == Probe30Default[8..]
  }

  /** The block GET_CUR/MIN/MAX/DEF answers with at a given link speed. */
  function ProbeBlock(speed: Speed, probe30: seq<byte>): seq<byte>
  {
    if speed == SuperSpeed then probe30 else Probe20
  }

  // ---------------------------------------------------------------------------
  // Transition functions

  /** abortHandler: a pending STREAM_EVENT is replaced by STREAM_ABORT_EVENT; without one nothing changes. */
  function AbortHandled(g: Globals): Globals
  {
    g.(streamEvent := false, abortEvent := g.abortEvent || g.streamEvent)
  }

  /** stopStreaming's effect on the globals. */
  function Stopped(g: Globals): Globals
  {
    g.(analyserMode := false, streamingStarted := false, gpifInitialized := false)
  }

  /** stopStreaming's SDK calls: GPIF off, NAK, DMA reset and flush, NAK off, clear stall. */
  const StopActions: seq<Action> :=
    [GpifDisable, EpNak(EP_BULK_VID, true), DmaReset, FlushEp(EP_BULK_VID), EpNak(EP_BULK_VID, false),
     ClearStall(EP_BULK_VID)]

  /** vidDmaCallback on a consumer event. */
  function Consumed(g: Globals): Globals
  {
    g.(consCount := Inc16(g.consCount), streamingStarted := true)
  }

  /** gpifCallback on the state machine's interrupt: FV seen. */
  function FrameValidSeen(g: Globals): Globals
  {
    g.(hitFV := true)
  }

  /** pibCallback on an error: only the back-flow errors 0x1005 and 0x1006 are latched. */
  function PibErrorSeen(g: Globals, arg: u16): Globals
  {
    g.(backFlowDetected := g.backFlowDetected || arg == 0x1005 || arg == 0x1006)
  }

  /** gpioInterruptCallback on the button GPIO: a high level is a release, a low one a press. */
  function ButtonSeen(g: Globals, level: bool): Globals
  {
    g.(buttonUpEvent := g.buttonUpEvent || level, buttonDownEvent := g.buttonDownEvent || !level)
  }

  /** The globals after a GetBuffer/commit attempt; a failed commit undoes its prodCount++. */
  function Committed(g: Globals, produced: Option<nat>, commitOk: bool): Globals
  {
    g.(gotPartial := g.gotPartial && (produced.None? || produced.value == FULL_BUFFER_COUNT),
       prodCount := if produced.Some? && commitOk then Inc16(g.prodCount) else g.prodCount)
  }

  /** The frame-end test: FV seen and every committed buffer consumed. */
  predicate FrameDone(g: Globals)
  {
    g.hitFV && g.prodCount == g.consCount && !g.gotPartial
  }

  /** Which branch a pass of the video thread takes. */
  datatype VideoBranch = LeaveIdle | StillIdle | Stream | Abort | EnterIdle

  function VideoBranchOf(g: Globals): VideoBranch
  {
    if g.idleWaiting then (if g.streamEvent then LeaveIdle else StillIdle)
    else if g.streamEvent then Stream
    else if g.abortEvent then Abort
    else EnterIdle
  }

  /** Whether a pass of the video thread ends a frame. */
  predicate VideoEndsFrame(g: Globals, produced: Option<nat>, commitOk: bool)
  {
    VideoBranchOf(g) == Stream && FrameDone(Committed(g, produced, commitOk))
  }

  /** The streaming branch's SDK calls: the commit, then the DMA reset and GPIF restart of a frame end. */
  function StreamActions(g: Globals, produced: Option<nat>, commitOk: bool): seq<Action>
  {
    (if produced.Some? then [DmaCommit(produced.value)] else [])
    + (if FrameDone(Committed(g, produced, commitOk)) then [DmaReset, DmaSetXfer, GpifSwitch] else [])
  }

  /** The end-of-frame block's effect: counters, FV and back-flow cleared. */
  function FrameRestarted(g: Globals): Globals
  {
    g.(prodCount := 0, consCount := 0, hitFV := false, backFlowDetected := false)
  }

  /**
   * The globals after one pass of vidThreadFunc's loop, field by field.
   * Leaving idle clears idleWaiting and marks the GPIF loaded; the idle branch
   * sets idleWaiting. A streaming pass applies the commit, and when that
   * completes the frame it zeroes both counters and clears hitFV and
   * backFlowDetected. An abort pass consumes STREAM_ABORT_EVENT, zeroes the
   * counters and clears hitFV and clearFeatureRqtReceived.
   */
  function VideoStepSpec(g: Globals, produced: Option<nat>, commitOk: bool): Globals
  {
    var b := VideoBranchOf(g);
    var c := Committed(g, produced, commitOk);
    var done := b == Stream && FrameDone(c);
    var cleared := done || b == Abort;
    g.(idleWaiting := if b == LeaveIdle then false else if b == EnterIdle then true else g.idleWaiting,
       gpifInitialized := g.gpifInitialized || b == LeaveIdle,
       gotPartial := if b == Stream then c.gotPartial else g.gotPartial,
       prodCount := if cleared then 0 else if b == Stream then c.prodCount else g.prodCount,
       consCount := if cleared then 0 else g.consCount,
       hitFV := g.hitFV && !cleared,
       backFlowDetected := g.backFlowDetected && !done,
       abortEvent := g.abortEvent && b != Abort,
       clearFeatureRqtReceived := g.clearFeatureRqtReceived && b != Abort)
  }

  /** The SDK calls of one pass of vidThreadFunc's loop. */
  function VideoStepActions(g: Globals, produced: Option<nat>, commitOk: bool): seq<Action>
  {
    match VideoBranchOf(g)
    case LeaveIdle => [DmaSetXfer] + (if g.gpifInitialized then [GpifSwitch] else [GpifLoad, GpifStart])
    case StillIdle => []
    case Stream => StreamActions(g, produced, commitOk)
    case Abort => if g.clearFeatureRqtReceived then [] else [DmaReset, FlushEp(EP_BULK_VID)]
    case EnterIdle => []
  }

  /** The globals after USBEventCallback. */
  function UsbEventSpec(g: Globals, ev: UsbEvent): Globals
  {
    match ev
    case Reset => AbortHandled(g.(gpifInitialized := false, streamingStarted := false))
    case Suspend => AbortHandled(g.(gpifInitialized := false, streamingStarted := false))
    case Disconnect =>
      AbortHandled(g.(gpifInitialized := false, usbSpeed := NotConnected, streamingStarted := false))
    case EpUnderrun => g
    case OtherEvent => g
  }

  /** Whether the setup packet is a vendor request. */
  predicate IsVendor(s: Setup)
  {
    RequestType(s.bmRequestType) == VENDOR_RQT
  }

  /** Whether the setup packet is the host's CLEAR_FEATURE on the video endpoint. */
  predicate IsClearVideoEp(s: Setup)
  {
    !IsVendor(s) && s.bmRequestType == TARGET_ENDPT && s.bRequest == SC_CLEAR_FEATURE && s.wIndex == EP_BULK_VID as u16
  }

  /** Whether the setup packet is a UVC class request to the interface in the low byte of wIndex. */
  predicate IsUvcRequestTo(s: Setup, intf: u16)
  {
    !IsVendor(s) && (s.bmRequestType == GET_REQ_TYPE || s.bmRequestType == SET_REQ_TYPE) && s.wIndex % 0x100 == intf
  }

  /** The globals after a vendor request. */
  function VendorSpec(g: Globals, s: Setup): Globals
  {
    if s.bRequest == 0xAF then
      // stopStreaming and abortHandler when streaming had started, then analyser mode and STREAM_EVENT
      g.(streamingStarted := false, gpifInitialized := g.gpifInitialized && !g.streamingStarted,
         abortEvent := g.abortEvent || (g.streamingStarted && g.streamEvent),
         analyserMode := true, streamEvent := true)
    else g
  }

  /** The class and endpoint requests USBSetupCallback acts on. */
  datatype ClassRequestKind = ToControl | ToStreaming | ClearVideoHalt | OtherRequest

  /** Which of them a setup packet is; CLEAR_FEATURE on EP 0x83 only counts while streaming has started. */
  function ClassRequestOf(g: Globals, s: Setup): ClassRequestKind
  {
    if IsUvcRequestTo(s, CONTROL_INTERFACE) then ToControl
    else if IsUvcRequestTo(s, STREAM_INTERFACE) then ToStreaming
    else if IsClearVideoEp(s) && g.streamingStarted then ClearVideoHalt
    else OtherRequest
  }

  /**
   * The globals after a class or endpoint request, field by field: a request
   * to the control interface raises the control event; one to the streaming
   * interface leaves analyser mode and raises the streaming-request event; the
   * CLEAR_FEATURE runs stopStreaming, sets clearFeatureRqtReceived and then
   * abortHandler.
   */
  function ClassSpec(g: Globals, s: Setup): Globals
  {
    var k := ClassRequestOf(g, s);
    var clear := k == ClearVideoHalt;
    g.(controlEvent := g.controlEvent || k == ToControl,
       streamRequestEvent := g.streamRequestEvent || k == ToStreaming,
       analyserMode := g.analyserMode && k != ToStreaming && !clear,
       streamingStarted := g.streamingStarted && !clear,
       gpifInitialized := g.gpifInitialized && !clear,
       clearFeatureRqtReceived := g.clearFeatureRqtReceived || clear,
       streamEvent := g.streamEvent && !clear,
       abortEvent := g.abortEvent || (clear && g.streamEvent))
  }

  /** The globals after USBSetupCallback (the decoded fields are stored in every case). */
  function SetupSpec(g: Globals, s: Setup): Globals
  {
    if IsVendor(s) then VendorSpec(g.(request := s), s) else ClassSpec(g.(request := s), s)
  }

  /** A vendor request's SDK calls; `ep0` is glEp0Buffer after the data phase. */
  function VendorActions(g: Globals, s: Setup, ep0: seq<byte>): seq<Action>
    requires |ep0| >= 2
  {
    if s.bRequest == 0xAC then [Ep0Receive(s.wLength)]
    else if s.bRequest == 0xAD then [I2cRead(HiByte(s.wValue), LoByte(s.wValue)), Ep0Send(ep0[..2])]
    else if s.bRequest == 0xAE then
      [Ep0Receive(s.wLength), I2cWrite(HiByte(s.wValue), LoByte(s.wValue), ep0[0], ep0[1])]
    else if s.bRequest == 0xAF then
      [Ep0Receive(s.wLength)] + (if g.streamingStarted then StopActions else [])
      + (if g.streamingStarted || !g.analyserMode then [DmaDestroy, DmaCreate(AnalyserChannel)] else [])
    else []
  }

  /** A class or endpoint request's SDK calls. */
  function ClassActions(g: Globals, s: Setup): seq<Action>
  {
    if IsUvcRequestTo(s, CONTROL_INTERFACE) then []
    else if IsUvcRequestTo(s, STREAM_INTERFACE) then [DmaDestroy, DmaCreate(VideoChannel)]
    else if IsClearVideoEp(s) then (if g.streamingStarted then StopActions else []) + [Ep0Ack]
    else []
  }

  /** USBSetupCallback's SDK calls. */
  function SetupActions(g: Globals, s: Setup, ep0: seq<byte>): seq<Action>
    requires |ep0| >= 2
  {
    if IsVendor(s) then VendorActions(g, s, ep0) else ClassActions(g, s)
  }

  /** The value USBSetupCallback returns. */
  predicate SetupHandled(s: Setup)
  {
    if IsVendor(s) then s.bRequest in {0xAC, 0xAD, 0xAE, 0xAF}
    else IsUvcRequestTo(s, CONTROL_INTERFACE) || IsUvcRequestTo(s, STREAM_INTERFACE) || IsClearVideoEp(s)
  }

  /** glEp0Buffer after USBSetupCallback; `regValue` is what the sensor's I2C_Read returns. */
  function SetupEp0(ep0: seq<byte>, s: Setup, host: seq<byte>, regValue: u16): (r: seq<byte>)
    requires |ep0| >= 2
    ensures |r| == |ep0|
  {
    if IsVendor(s) && s.bRequest in {0xAC, 0xAE, 0xAF} then Overlay(ep0, host)
    else if IsVendor(s) && s.bRequest == 0xAD then ep0[0 := HiByte(regValue)][1 := LoByte(regValue)]
    else ep0
  }

  /** How videoStreamingRequests answers wValue/bRequest. */
  datatype StreamingReply = ReplyInfo | ReplyLength | ReplyProbe | ProbeSetCur | CommitSetCur | ReplyStall

  function StreamingReplyOf(wValue: u16, bRequest: byte): (r: StreamingReply)
    ensures r == ReplyStall <==>
      !((wValue == PROBE_CTRL && bRequest in {GET_INFO, GET_LEN, GET_CUR, GET_MIN, GET_MAX, GET_DEF, SET_CUR})
        || (wValue == COMMIT_CTRL && bRequest in {GET_INFO, GET_LEN, GET_CUR, SET_CUR}))
    ensures r == ProbeSetCur <==> wValue == PROBE_CTRL && bRequest == SET_CUR
    ensures r == CommitSetCur <==> wValue == COMMIT_CTRL && bRequest == SET_CUR
  {
    if wValue != PROBE_CTRL && wValue != COMMIT_CTRL then ReplyStall
    else if bRequest == GET_INFO then ReplyInfo
    else if bRequest == GET_LEN then ReplyLength
    else if bRequest == GET_CUR then ReplyProbe
    else if bRequest == SET_CUR then (if wValue == PROBE_CTRL then ProbeSetCur else CommitSetCur)
    else if wValue == PROBE_CTRL && bRequest in {GET_MIN, GET_MAX, GET_DEF} then ReplyProbe
    else ReplyStall
  }

  /** Whether one pass of controlThreadFunc finds one of its four events (otherwise it keeps waiting). */
  predicate ControlWakes(g: Globals)
  {
    g.controlEvent || g.streamRequestEvent || g.buttonDownEvent || g.buttonUpEvent
  }

  /** Whether the pass runs videoStreamingRequests. */
  predicate ServesStreaming(g: Globals)
  {
    g.streamRequestEvent && g.request.wIndex == STREAM_INTERFACE
  }

  /** The link speed after the pass: read from the USB block only while unknown. */
  function SpeedAfter(g: Globals, linkSpeed: Speed): Speed
  {
    if g.usbSpeed == NotConnected then linkSpeed else g.usbSpeed
  }

  /** Whether the pass is a successful SET_CUR(COMMIT), which raises STREAM_EVENT. */
  predicate CommitStarts(g: Globals, hostOk: bool)
  {
    ServesStreaming(g) && hostOk && StreamingReplyOf(g.request.wValue, g.request.bRequest) == CommitSetCur
  }

  /**
   * The globals after one pass of controlThreadFunc's loop; `hostOk` is the
   * status of a SET_CUR data phase. A pass that finds none of its events leaves
   * them clear and changes nothing else.
   */
  function ControlStepSpec(g: Globals, linkSpeed: Speed, hostOk: bool): Globals
  {
    g.(controlEvent := false, streamRequestEvent := false, buttonDownEvent := false, buttonUpEvent := false,
       usbSpeed := if ControlWakes(g) then SpeedAfter(g, linkSpeed) else g.usbSpeed,
       streamEvent := g.streamEvent || CommitStarts(g, hostOk))
  }

  /** The reply videoStreamingRequests gives; `ep0` is glEp0Buffer after the pass. */
  function StreamingActions(g: Globals, speed: Speed, probe30: seq<byte>, ep0: seq<byte>): seq<Action>
    requires |ep0| >= 1
  {
    match StreamingReplyOf(g.request.wValue, g.request.bRequest)
    case ReplyInfo => [Ep0Send(ep0[..1])]
    case ReplyLength => [Ep0Send(ep0[..1])]
    case ReplyProbe => [Ep0Send(ProbeBlock(speed, probe30))]
    case ProbeSetCur => [Ep0Receive(MAX_PROBE_SETTING_ALIGNED)]
    case CommitSetCur => [Ep0Receive(MAX_PROBE_SETTING_ALIGNED)]
    case ReplyStall => [Ep0Stall]
  }

  /** The SDK calls of one pass of controlThreadFunc's loop. */
  function ControlStepActions(g: Globals, linkSpeed: Speed, probe30: seq<byte>, ep0: seq<byte>): seq<Action>
    requires |ep0| >= 1
  {
    if !ControlWakes(g) then []
    else
      (if g.controlEvent then [Ep0Stall] else [])
      + (if !g.streamRequestEvent then []
         else if ServesStreaming(g) then StreamingActions(g, SpeedAfter(g, linkSpeed), probe30, ep0)
         else [Ep0Stall])
  }

  /** glEp0Buffer after videoStreamingRequests: GET_INFO writes 3, GET_LEN writes 26 into byte 0. */
  function StreamingEp0(s: Setup, ep0: seq<byte>): (r: seq<byte>)
    requires |ep0| >= 1
    ensures |r| == |ep0|
  {
    match StreamingReplyOf(s.wValue, s.bRequest)
    case ReplyInfo => ep0[0 := 3]
    case ReplyLength => ep0[0 := MAX_PROBE_SETTING]
    case _ => ep0
  }

  /** commitCtrl after videoStreamingRequests: a successful SET_CUR data phase lands there. */
  function StreamingCommit(s: Setup, commit: seq<byte>, host: seq<byte>, hostOk: bool): (r: seq<byte>)
    ensures |r| == |commit|
  {
    var reply := StreamingReplyOf(s.wValue, s.bRequest);
    if hostOk && (reply == ProbeSetCur || reply == CommitSetCur) then Overlay(commit, host) else commit
  }

  /** probeCtrl30 after videoStreamingRequests: a successful SET_CUR(PROBE) at super speed copies bytes 2..7 of commitCtrl. */
  function StreamingProbe(s: Setup, speed: Speed, hostOk: bool, probe30: seq<byte>, newCommit: seq<byte>): (r: seq<byte>)
    requires |probe30| == MAX_PROBE_SETTING as nat && |newCommit| == MAX_PROBE_SETTING_ALIGNED
    ensures |r| == |probe30|
  {
    if hostOk && speed == SuperSpeed && StreamingReplyOf(s.wValue, s.bRequest) == ProbeSetCur
    then MergeProbe(probe30, newCommit)
    else probe30
  }

  /** glEp0Buffer after a pass of controlThreadFunc's loop. */
  function ControlEp0(g: Globals, ep0: seq<byte>): (r: seq<byte>)
    requires |ep0| >= 1
    ensures |r| == |ep0|
  {
    if ControlWakes(g) && ServesStreaming(g) then StreamingEp0(g.request, ep0) else ep0
  }

  /** commitCtrl after a pass. */
  function ControlCommit(g: Globals, commit: seq<byte>, host: seq<byte>, hostOk: bool): (r: seq<byte>)
    ensures |r| == |commit|
  {
    if ControlWakes(g) && ServesStreaming(g) then StreamingCommit(g.request, commit, host, hostOk) else commit
  }

  /** probeCtrl30 after a pass. */
  function ControlProbe(g: Globals, linkSpeed: Speed, hostOk: bool, probe30: seq<byte>, newCommit: seq<byte>): (r: seq<byte>)
    requires |probe30| == MAX_PROBE_SETTING as nat && |newCommit| == MAX_PROBE_SETTING_ALIGNED
    ensures |r| == |probe30|
  {
    if ControlWakes(g) && ServesStreaming(g)
    then StreamingProbe(g.request, SpeedAfter(g, linkSpeed), hostOk, probe30, newCommit)
    else probe30
  }

  // ---------------------------------------------------------------------------
  // The device

  class UvcDevice {
    /** The file-static scalars and event bits. */
    var st: Globals

    const uvcHeader: array<byte>
    const uvcHeaderEof: array<byte>
    const probeCtrl30: array<byte>
    const commitCtrl: array<byte>
    const ep0Buffer: array<byte>

    /** Frame ends so far. */
    ghost var frames: nat
    /** SDK calls so far. */
    ghost var log: seq<Action>

    ghost predicate Valid()
      reads this`frames, uvcHeader, uvcHeaderEof, probeCtrl30, commitCtrl, ep0Buffer
    {
      && uvcHeader != uvcHeaderEof && uvcHeader != probeCtrl30 && uvcHeader != commitCtrl && uvcHeader != ep0Buffer
      && uvcHeaderEof != probeCtrl30 && uvcHeaderEof != commitCtrl && uvcHeaderEof != ep0Buffer
      && probeCtrl30 != commitCtrl && probeCtrl30 != ep0Buffer && commitCtrl != ep0Buffer
      && uvcHeader[..] == HeaderAfter(frames)
      && uvcHeaderEof[..] == EofHeaderAfter(frames)
      && ProbeShaped(probeCtrl30[..])
      && commitCtrl.Length == MAX_PROBE_SETTING_ALIGNED
      && ep0Buffer.Length == 32
    }

    constructor ()
      ensures Valid() && st == InitialGlobals && frames == 0 && log == []
      ensures probeCtrl30[..] == Probe30Default
    {
      st := InitialGlobals;
      uvcHeader := new byte[12][0x0C, 0x8C, 0, 0, 0, 0, 0, 0, 0, 0, 0, 0];
      uvcHeaderEof := new byte[12][0x0C, 0x8E, 0, 0, 0, 0, 0, 0, 0, 0, 0, 0];
      probeCtrl30 := new byte[26][0x00, 0x00, 0x01, 0x01, 0x15, 0x16, 0x05, 0x00,
                                  0x00, 0x00, 0x00, 0x00, 0x00, 0x00, 0x00, 0x00, 0x00, 0x00,
                                  0x00, 0x48, 0x3F, 0x00, 0x00, 0x40, 0x00, 0x00];
      commitCtrl := new byte[32](_ => 0);
      ep0Buffer := new byte[32](_ => 0);
      frames, log := 0, [];
      new;
      assert uvcHeader[..] == DefaultHeader;
      assert uvcHeaderEof[..] == DefaultHeaderEof;
      assert probeCtrl30[..] == Probe30Default;
    }

    /** gpioInterruptCallback: the button GPIO's level raises BUTTON_UP or BUTTON_DOWN. */
    method GpioInterrupt(gpioId: nat, readOk: bool, level: bool)
      requires Valid()
      modifies this
      ensures Valid() && frames == old(frames) && log == old(log)
      ensures st == if gpioId != BUTTON_GPIO || !readOk then old(st) else ButtonSeen(old(st), level)
    {
      if gpioId == BUTTON_GPIO && readOk {
        if level {
          st := st.(buttonUpEvent := true);
        } else {
          st := st.(buttonDownEvent := true);
        }
      }
    }

    /** vidDmaCallback: a consumed buffer counts and marks streaming as started. */
    method DmaCallback(consumerEvent: bool)
      requires Valid()
      modifies this
      ensures Valid() && frames == old(frames) && log == old(log)
      ensures st == if consumerEvent then Consumed(old(st)) else old(st)
    {
      if consumerEvent {
        st := st.(consCount := Inc16(st.consCount), streamingStarted := true);
      }
    }

    /** gpifCallback: the state machine's interrupt is the frame-valid end of a frame. */
    method GpifCallback(smInterrupt: bool)
      requires Valid()
      modifies this
      ensures Valid() && frames == old(frames) && log == old(log)
      ensures st == if smInterrupt then FrameValidSeen(old(st)) else old(st)
    {
      if smInterrupt {
        st := st.(hitFV := true);
      }
    }

    /** pibCallback: PIB error 0x1005 or 0x1006 latches the back-flow flag. */
    method PibCallback(isError: bool, arg: u16)
      requires Valid()
      modifies this
      ensures Valid() && frames == old(frames) && log == old(log)
      ensures st == if isError then PibErrorSeen(old(st), arg) else old(st)
    {
      if isError && (arg == 0x1005 || arg == 0x1006) {
        if !st.backFlowDetected {
          st := st.(backFlowDetected := true);
        }
      }
    }

    /** abortHandler. */
    method AbortHandler()
      requires Valid()
      modifies this
      ensures Valid() && frames == old(frames) && log == old(log)
      ensures st == AbortHandled(old(st))
    {
      if st.streamEvent {
        st := st.(streamEvent := false, abortEvent := true);
      }
    }

    /** stopStreaming. */
    method StopStreaming()
      requires Valid()
      modifies this
      ensures Valid() && frames == old(frames)
      ensures st == Stopped(old(st)) && log == old(log) + StopActions
    {
      st := st.(analyserMode := false, streamingStarted := false, gpifInitialized := false);
      log := log + [GpifDisable];
      log := log + [EpNak(EP_BULK_VID, true), DmaReset, FlushEp(EP_BULK_VID), EpNak(EP_BULK_VID, false)];
      log := log + [ClearStall(EP_BULK_VID)];
    }

    /** USBEventCallback: reset, suspend and disconnect stop the GPIF and abort a pending stream. */
    method UsbEventCallback(ev: UsbEvent)
      requires Valid()
      modifies this
      ensures Valid() && frames == old(frames)
      ensures st == UsbEventSpec(old(st), ev)
      ensures log == old(log) + (if ev.Reset? || ev.Suspend? || ev.Disconnect? then [GpifDisable] else [])
    {
      match ev {
        case Reset =>
          log := log + [GpifDisable];
          st := st.(gpifInitialized := false, streamingStarted := false);
          AbortHandler();
        case Suspend =>
          log := log + [GpifDisable];
          st := st.(gpifInitialized := false, streamingStarted := false);
          AbortHandler();
        case Disconnect =>
          log := log + [GpifDisable];
          st := st.(gpifInitialized := false, usbSpeed := NotConnected, streamingStarted := false);
          AbortHandler();
        case EpUnderrun =>
        case OtherEvent =>
      }
    }

    /** `CyU3PUsbGetEP0Data` into glEp0Buffer. */
    method ReceiveEp0(length: u16, host: seq<byte>)
      requires Valid()
      modifies ep0Buffer, this`log
      ensures Valid() && ep0Buffer[..] == Overlay(old(ep0Buffer[..]), host)
      ensures log == old(log) + [Ep0Receive(length)]
    {
      forall k | 0 <= k < ep0Buffer.Length && k < |host| {
        ep0Buffer[k] := host[k];
      }
      assert ep0Buffer[..] == Overlay(old(ep0Buffer[..]), host);
      log := log + [Ep0Receive(length)];
    }

    /**
     * USBSetupCallback: vendor requests 0xAC..0xAF (sensor register access
     * and analyser mode), the UVC class requests that wake the control thread,
     * and the host's CLEAR_FEATURE on the video endpoint that stops streaming.
     * `host` is the data phase the host sends, `regValue` the value the sensor
     * driver reads for 0xAD.
     */
    method SetupCallback(setupdat0: u32, setupdat1: u32, host: seq<byte>, regValue: u16) returns (isHandled: bool)
      requires Valid()
      modifies this, ep0Buffer
      ensures Valid() && frames == old(frames)
      ensures st == SetupSpec(old(st), Decode(setupdat0, setupdat1))
      ensures ep0Buffer[..] == SetupEp0(old(ep0Buffer[..]), Decode(setupdat0, setupdat1), host, regValue)
      ensures log == old(log) + SetupActions(old(st), Decode(setupdat0, setupdat1), ep0Buffer[..])
      ensures isHandled == SetupHandled(Decode(setupdat0, setupdat1))
    {
      var s := Decode(setupdat0, setupdat1);
      st := st.(request := s);
      if RequestType(s.bmRequestType) == VENDOR_RQT {
        isHandled := VendorRequest(s, host, regValue);
      } else {
        isHandled := ClassRequest(s);
      }
    }

    /** The vendor branch of USBSetupCallback. */
    method VendorRequest(s: Setup, host: seq<byte>, regValue: u16) returns (isHandled: bool)
      requires Valid() && IsVendor(s)
      modifies this, ep0Buffer
      ensures Valid() && frames == old(frames)
      ensures st == VendorSpec(old(st), s)
      ensures ep0Buffer[..] == SetupEp0(old(ep0Buffer[..]), s, host, regValue)
      ensures log == old(log) + VendorActions(old(st), s, ep0Buffer[..])
      ensures isHandled == SetupHandled(s)
    {
      isHandled := false;
      if s.bRequest == 0xA0 {
        // streamer example test: left unhandled
      } else if s.bRequest == 0xAC {
        ReceiveEp0(s.wLength, host);
        isHandled := true;
      } else if s.bRequest == 0xAD {
        ep0Buffer[0] := HiByte(regValue);
        ep0Buffer[1] := LoByte(regValue);
        log := log + [I2cRead(HiByte(s.wValue), LoByte(s.wValue)), Ep0Send(ep0Buffer[..2])];
        isHandled := true;
      } else if s.bRequest == 0xAE {
        ReceiveEp0(s.wLength, host);
        log := log + [I2cWrite(HiByte(s.wValue), LoByte(s.wValue), ep0Buffer[0], ep0Buffer[1])];
        isHandled := true;
      } else if s.bRequest == 0xAF {
        ReceiveEp0(s.wLength, host);
        StartAnalyser();
        isHandled := true;
      }
    }

    /** Vendor request 0xAF after its data phase: stop a running stream, switch the DMA channel to analyser mode, raise STREAM_EVENT. */
    method StartAnalyser()
      requires Valid()
      modifies this
      ensures Valid() && frames == old(frames)
      ensures st == VendorSpec(old(st), Setup(0, 0xAF, 0, 0, 0))
      ensures log == old(log) + (if old(st).streamingStarted then StopActions else [])
        + (if old(st).streamingStarted || !old(st).analyserMode then [DmaDestroy, DmaCreate(AnalyserChannel)] else [])
    {
      if st.streamingStarted {
        StopStreaming();
        AbortHandler();
      }
      if !st.analyserMode {
        log := log + [DmaDestroy, DmaCreate(AnalyserChannel)];
      }
      st := st.(analyserMode := true, streamEvent := true);
    }

    /** The class and endpoint branch of USBSetupCallback. */
    method ClassRequest(s: Setup) returns (isHandled: bool)
      requires Valid() && !IsVendor(s)
      modifies this
      ensures Valid() && frames == old(frames)
      ensures st == ClassSpec(old(st), s)
      ensures log == old(log) + ClassActions(old(st), s)
      ensures isHandled == SetupHandled(s)
    {
      if s.bmRequestType == GET_REQ_TYPE || s.bmRequestType == SET_REQ_TYPE {
        isHandled := InterfaceRequest(s);
      } else if s.bmRequestType == SET_INTF_REQ_TYPE {
        // SET_INTERFACE (alternate setting 0 after streaming) is left to the stack
        isHandled := false;
      } else if s.bmRequestType == TARGET_ENDPT {
        isHandled := EndpointRequest(s);
      } else {
        isHandled := false;
      }
    }

    /** A UVC class request (GET or SET) to the control or the streaming interface. */
    method InterfaceRequest(s: Setup) returns (isHandled: bool)
      requires Valid() && !IsVendor(s)
      requires s.bmRequestType == GET_REQ_TYPE || s.bmRequestType == SET_REQ_TYPE
      modifies this
      ensures Valid() && frames == old(frames)
      ensures st == ClassSpec(old(st), s)
      ensures log == old(log) + ClassActions(old(st), s)
      ensures isHandled == SetupHandled(s)
    {
      if s.wIndex % 0x100 == CONTROL_INTERFACE {
        st := st.(controlEvent := true);
        isHandled := true;
      } else if s.wIndex % 0x100 == STREAM_INTERFACE {
        StreamingInterfaceRequest(s);
        isHandled := true;
      } else {
        isHandled := false;
      }
    }

    /** A class request to the streaming interface: the channel is rebuilt for video and the thread is told. */
    method StreamingInterfaceRequest(s: Setup)
      requires Valid() && IsUvcRequestTo(s, STREAM_INTERFACE)
      modifies this
      ensures Valid() && frames == old(frames)
      ensures st == ClassSpec(old(st), s)
      ensures log == old(log) + ClassActions(old(st), s)
    {
      log := log + [DmaDestroy, DmaCreate(VideoChannel)];
      st := st.(analyserMode := false, streamRequestEvent := true);
    }

    /** A request to an endpoint: only CLEAR_FEATURE on the video endpoint is handled. */
    method EndpointRequest(s: Setup) returns (isHandled: bool)
      requires Valid() && !IsVendor(s) && s.bmRequestType == TARGET_ENDPT
      modifies this
      ensures Valid() && frames == old(frames)
      ensures st == ClassSpec(old(st), s)
      ensures log == old(log) + ClassActions(old(st), s)
      ensures isHandled == SetupHandled(s)
    {
      isHandled := false;
      if s.bRequest == SC_CLEAR_FEATURE && s.wIndex == EP_BULK_VID as u16 {
        if st.streamingStarted {
          StopOnClearFeature();
          isHandled := true;
        } else {
          log := log + [Ep0Ack];
          isHandled := true;
        }
      }
    }

    /** The host's CLEAR_FEATURE on EP 0x83 while streaming: stop, acknowledge, note the request, abort. */
    method StopOnClearFeature()
      requires Valid()
      modifies this
      ensures Valid() && frames == old(frames)
      ensures st == AbortHandled(Stopped(old(st)).(clearFeatureRqtReceived := true))
      ensures log == old(log) + StopActions + [Ep0Ack]
    {
      StopStreaming();
      log := log + [Ep0Ack];
      st := st.(clearFeatureRqtReceived := true);
      AbortHandler();
    }

    /**
     * One pass of vidThreadFunc's loop. `produced` is what the non-blocking
     * GetBuffer hands back (the buffer's byte count), `commitOk` the commit's
     * status.
     */
    method VideoStep(produced: Option<nat>, commitOk: bool)
      requires Valid()
      modifies this, uvcHeader, uvcHeaderEof
      ensures Valid()
      ensures st == VideoStepSpec(old(st), produced, commitOk)
      ensures log == old(log) + VideoStepActions(old(st), produced, commitOk)
      ensures frames == old(frames) + if VideoEndsFrame(old(st), produced, commitOk) then 1 else 0
    {
      if st.idleWaiting {
        LeaveIdle(produced, commitOk);
      } else if st.streamEvent {
        StreamPass(produced, commitOk);
      } else if st.abortEvent {
        AbortPass(produced, commitOk);
      } else {
        st := st.(idleWaiting := true);
      }
    }

    /** The idle wait: once STREAM_EVENT is set, arm the DMA channel and load and start the GPIF, or restart it when it is already loaded. */
    method LeaveIdle(ghost produced: Option<nat>, ghost commitOk: bool)
      requires Valid() && st.idleWaiting
      modifies this
      ensures Valid() && frames == old(frames)
      ensures st == VideoStepSpec(old(st), produced, commitOk)
      ensures log == old(log) + VideoStepActions(old(st), produced, commitOk)
    {
      if st.streamEvent {
        log := log + [DmaSetXfer];
        if !st.gpifInitialized {
          log := log + [GpifLoad, GpifStart];
        } else {
          log := log + [GpifSwitch];
        }
        st := st.(gpifInitialized := true, idleWaiting := false);
      }
    }

    /** The streaming branch: commit a produced buffer, then close the frame when FV was seen and every buffer was consumed. */
    method StreamPass(produced: Option<nat>, commitOk: bool)
      requires Valid() && !st.idleWaiting && st.streamEvent
      modifies this, uvcHeader, uvcHeaderEof
      ensures Valid()
      ensures st == VideoStepSpec(old(st), produced, commitOk)
      ensures log == old(log) + VideoStepActions(old(st), produced, commitOk)
      ensures frames == old(frames) + if VideoEndsFrame(old(st), produced, commitOk) then 1 else 0
    {
      ghost var g := st;
      ghost var c := Committed(st, produced, commitOk);
      assert VideoStepSpec(g, produced, commitOk) == if FrameDone(c) then FrameRestarted(c) else c;
      assert VideoStepActions(g, produced, commitOk) == StreamActions(g, produced, commitOk);
      CommitProduced(produced, commitOk);
      if st.hitFV && st.prodCount == st.consCount && !st.gotPartial {
        EndOfFrame();
      }
    }

    /** A buffer the GPIF produced goes to the consumer; prodCount counts it only if the commit succeeds. */
    method CommitProduced(produced: Option<nat>, commitOk: bool)
      requires Valid()
      modifies this
      ensures Valid() && frames == old(frames)
      ensures st == Committed(old(st), produced, commitOk)
      ensures log == old(log) + if produced.Some? then [DmaCommit(produced.value)] else []
    {
      if produced.Some? {
        var partial := st.gotPartial;
        if produced.value != FULL_BUFFER_COUNT {
          partial := false;
        }
        var count := Inc16(st.prodCount);
        log := log + [DmaCommit(produced.value)];
        if !commitOk {
          count := Dec16(count);
        }
        st := st.(gotPartial := partial, prodCount := count);
      }
    }

    /** The abort branch: STREAM_ABORT_EVENT consumed, frame state cleared, DMA reset unless stopStreaming already did it. */
    method AbortPass(ghost produced: Option<nat>, ghost commitOk: bool)
      requires Valid() && !st.idleWaiting && !st.streamEvent && st.abortEvent
      modifies this
      ensures Valid() && frames == old(frames) && !VideoEndsFrame(old(st), produced, commitOk)
      ensures st == VideoStepSpec(old(st), produced, commitOk)
      ensures log == old(log) + VideoStepActions(old(st), produced, commitOk)
    {
      ghost var g := st;
      st := st.(abortEvent := false, hitFV := false, prodCount := 0, consCount := 0, clearFeatureRqtReceived := false);
      assert st == VideoStepSpec(g, produced, commitOk);
      if !g.clearFeatureRqtReceived {
        log := log + [DmaReset, FlushEp(EP_BULK_VID)];
      }
    }

    /** The end-of-frame block: counters and FV cleared, frame ID toggled in both headers, DMA and GPIF restarted. */
    method EndOfFrame()
      requires Valid()
      modifies this, uvcHeader, uvcHeaderEof
      ensures Valid() && frames == old(frames) + 1
      ensures st == FrameRestarted(old(st))
      ensures log == old(log) + [DmaReset, DmaSetXfer, GpifSwitch]
    {
      st := st.(prodCount := 0, consCount := 0, hitFV := false, backFlowDetected := false);
      uvcHeader[1] := ToggleFrameId(uvcHeader[1]);
      uvcHeaderEof[1] := uvcHeader[1];
      ToggleAdvancesHeader(frames);
      frames := frames + 1;
      assert uvcHeader[..] == HeaderAfter(frames);
      assert uvcHeaderEof[..] == uvcHeader[..];
      log := log + [DmaReset, DmaSetXfer, GpifSwitch];
    }

    /**
     * One pass of controlThreadFunc's loop: it sleeps until a video-control,
     * video-streaming or button event, reads the link speed while unknown,
     * stalls video-control requests and serves probe/commit. `host` and
     * `hostOk` are a SET_CUR data phase and its status.
     */
    method ControlStep(linkSpeed: Speed, host: seq<byte>, hostOk: bool)
      requires Valid()
      modifies this, probeCtrl30, commitCtrl, ep0Buffer
      ensures Valid() && frames == old(frames)
      ensures st == ControlStepSpec(old(st), linkSpeed, hostOk)
      ensures ep0Buffer[..] == ControlEp0(old(st), old(ep0Buffer[..]))
      ensures commitCtrl[..] == ControlCommit(old(st), old(commitCtrl[..]), host, hostOk)
      ensures probeCtrl30[..] == ControlProbe(old(st), linkSpeed, hostOk, old(probeCtrl30[..]), commitCtrl[..])
      ensures log == old(log) + ControlStepActions(old(st), linkSpeed, old(probeCtrl30[..]), ep0Buffer[..])
    {
      if ControlWakes(st) {
        if ServesStreaming(st) {
          ControlServes(linkSpeed, host, hostOk);
        } else {
          ControlStalls(linkSpeed);
        }
      }
    }

    /** A pass that answers a video-streaming request. */
    method ControlServes(linkSpeed: Speed, host: seq<byte>, hostOk: bool)
      requires Valid() && ControlWakes(st) && ServesStreaming(st)
      modifies this, probeCtrl30, commitCtrl, ep0Buffer
      ensures Valid() && frames == old(frames)
      ensures st == ControlStepSpec(old(st), linkSpeed, hostOk)
      ensures ep0Buffer[..] == StreamingEp0(old(st).request, old(ep0Buffer[..]))
      ensures commitCtrl[..] == StreamingCommit(old(st).request, old(commitCtrl[..]), host, hostOk)
      ensures probeCtrl30[..] == StreamingProbe(old(st).request, SpeedAfter(old(st), linkSpeed), hostOk, old(probeCtrl30[..]), commitCtrl[..])
      ensures log == old(log) + ControlStepActions(old(st), linkSpeed, old(probeCtrl30[..]), ep0Buffer[..])
    {
      var speed := st.usbSpeed;
      if speed == NotConnected {
        speed := linkSpeed;
      }
      if st.controlEvent {
        log := log + [Ep0Stall];
      }
      var start := VideoStreamingRequests(speed, host, hostOk);
      st := st.(controlEvent := false, streamRequestEvent := false, buttonDownEvent := false, buttonUpEvent := false,
                usbSpeed := speed, streamEvent := st.streamEvent || start);
    }

    /** A pass that has no video-streaming request to answer: it only stalls what it cannot serve. */
    method ControlStalls(linkSpeed: Speed)
      requires Valid() && ControlWakes(st) && !ServesStreaming(st)
      modifies this
      ensures Valid() && frames == old(frames)
      ensures st == ControlStepSpec(old(st), linkSpeed, false)
      ensures log == old(log) + ControlStepActions(old(st), linkSpeed, probeCtrl30[..], ep0Buffer[..])
    {
      var speed := st.usbSpeed;
      if speed == NotConnected {
        speed := linkSpeed;
      }
      if st.controlEvent {
        log := log + [Ep0Stall];
      }
      if st.streamRequestEvent {
        log := log + [Ep0Stall];
      }
      st := st.(controlEvent := false, streamRequestEvent := false, buttonDownEvent := false, buttonUpEvent := false,
                usbSpeed := speed);
    }

    /**
     * videoStreamingRequests: the probe/commit negotiation of section 4.3.1.1 of
     * the UVC 1.1 specification at link speed `speed`; `start` says whether it
     * raises STREAM_EVENT.
     */
    method VideoStreamingRequests(speed: Speed, host: seq<byte>, hostOk: bool) returns (start: bool)
      requires Valid()
      modifies this`log, probeCtrl30, commitCtrl, ep0Buffer
      ensures Valid()
      ensures start == (StreamingReplyOf(st.request.wValue, st.request.bRequest) == CommitSetCur && hostOk)
      ensures ep0Buffer[..] == StreamingEp0(st.request, old(ep0Buffer[..]))
      ensures commitCtrl[..] == StreamingCommit(st.request, old(commitCtrl[..]), host, hostOk)
      ensures probeCtrl30[..] == StreamingProbe(st.request, speed, hostOk, old(probeCtrl30[..]), commitCtrl[..])
      ensures log == old(log) + StreamingActions(st, speed, old(probeCtrl30[..]), ep0Buffer[..])
    {
      start := false;
      var reply := StreamingReplyOf(st.request.wValue, st.request.bRequest);
      match reply {
        case ReplyInfo =>
          ep0Buffer[0] := 3;
          log := log + [Ep0Send(ep0Buffer[..1])];
        case ReplyLength =>
          ep0Buffer[0] := MAX_PROBE_SETTING;
          log := log + [Ep0Send(ep0Buffer[..1])];
        case ReplyProbe =>
          log := log + [Ep0Send(if speed == SuperSpeed then probeCtrl30[..] else Probe20)];
        case ProbeSetCur =>
          log := log + [Ep0Receive(MAX_PROBE_SETTING_ALIGNED)];
          if hostOk {
            ReceiveCommit(host);
            if speed == SuperSpeed {
              CopyProbeFields();
            }
          }
        case CommitSetCur =>
          log := log + [Ep0Receive(MAX_PROBE_SETTING_ALIGNED)];
          if hostOk {
            ReceiveCommit(host);
            start := true;
          }
        case ReplyStall =>
          log := log + [Ep0Stall];
      }
    }

    /** The data phase of SET_CUR landing in commitCtrl. */
    method ReceiveCommit(host: seq<byte>)
      requires Valid()
      modifies commitCtrl
      ensures Valid() && commitCtrl[..] == Overlay(old(commitCtrl[..]), host)
    {
      forall k | 0 <= k < commitCtrl.Length && k < |host| {
        commitCtrl[k] := host[k];
      }
      assert commitCtrl[..] == Overlay(old(commitCtrl[..]), host);
    }

    /** `probeCtrl30[k] = commitCtrl[k]` for k in 2..7. */
    method CopyProbeFields()
      requires Valid()
      modifies probeCtrl30
      ensures Valid() && probeCtrl30[..] == MergeProbe(old(probeCtrl30[..]), commitCtrl[..])
    {
      var k := 2;
      while k < 8
        invariant 2 <= k <= 8
        invariant forall i :: 0 <= i < probeCtrl30.Length ==>
          probeCtrl30[i] == if 2 <= i < k then commitCtrl[i] else old(probeCtrl30[i])
      {
        probeCtrl30[k] := commitCtrl[k];
        k := k + 1;
      }
      assert probeCtrl30[..] == MergeProbe(old(probeCtrl30[..]), commitCtrl[..]);
    }
  }

  // ---------------------------------------------------------------------------
  // Runs of the core: every callback and every thread pass as one atomic event

  /** What can happen to the core in one atomic step. */
  datatype Event =
    | VideoPass(produced: Option<nat>, commitOk: bool)
    | BufferConsumed
    | FrameValid
    | PibError(arg: u16)
    | ButtonLevel(level: bool)
    | LinkEvent(ev: UsbEvent)
    | SetupPacket(s: Setup)
    | ControlPass(linkSpeed: Speed, hostOk: bool)

  /** The globals after one event, as the methods of UvcDevice specify it. */
  function Step(g: Globals, e: Event): Globals
  {
    match e
    case VideoPass(produced, commitOk) => VideoStepSpec(g, produced, commitOk)
    case BufferConsumed => Consumed(g)
    case FrameValid => FrameValidSeen(g)
    case PibError(arg) => PibErrorSeen(g, arg)
    case ButtonLevel(level) => ButtonSeen(g, level)
    case LinkEvent(ev) => UsbEventSpec(g, ev)
    case SetupPacket(s) => SetupSpec(g, s)
    case ControlPass(linkSpeed, hostOk) => ControlStepSpec(g, linkSpeed, hostOk)
  }

  /** The globals after a sequence of events. */
  function Run(g: Globals, es: seq<Event>): Globals
    decreases |es|
  {
    if es == [] then g else Step(Run(g, es[..|es| - 1]), es[|es| - 1])
  }

  /** Whether the event is a video pass that runs the end-of-frame block. */
  predicate EndsFrame(g: Globals, e: Event)
  {
    e.VideoPass? && VideoEndsFrame(g, e.produced, e.commitOk)
  }

  /** Whether the event is a video pass that leaves the idle wait. */
  predicate LeavesIdle(g: Globals, e: Event)
  {
    e.VideoPass? && VideoBranchOf(g) == LeaveIdle
  }

  /** The end-of-frame block runs only with FV seen and every produced buffer consumed, and it restarts the frame. */
  lemma FrameEndCondition(g: Globals, produced: Option<nat>, commitOk: bool)
    requires VideoEndsFrame(g, produced, commitOk)
    ensures var c := Committed(g, produced, commitOk);
      c.hitFV && c.prodCount == c.consCount && !c.gotPartial
    ensures var r := VideoStepSpec(g, produced, commitOk);
      r.prodCount == 0 && r.consCount == 0 && !r.hitFV && !r.backFlowDetected
  {
  }

  // The effect of each kind of step on the three latches backFlowDetected,
  // gpifInitialized and clearFeatureRqtReceived, one latch per lemma.

  /** A video pass clears the back-flow latch exactly when it ends a frame. */
  lemma VideoStepBackFlow(g: Globals, produced: Option<nat>, commitOk: bool)
    ensures VideoStepSpec(g, produced, commitOk).backFlowDetected
      == (g.backFlowDetected && !VideoEndsFrame(g, produced, commitOk))
  {
  }

  /** A video pass loads the GPIF exactly when it leaves the idle wait, and never unloads it. */
  lemma VideoStepGpif(g: Globals, produced: Option<nat>, commitOk: bool)
    ensures VideoStepSpec(g, produced, commitOk).gpifInitialized
      == (g.gpifInitialized || VideoBranchOf(g) == LeaveIdle)
  {
  }

  /** A video pass clears clearFeatureRqtReceived exactly when it is an abort pass. */
  lemma VideoStepClearFeature(g: Globals, produced: Option<nat>, commitOk: bool)
    ensures VideoStepSpec(g, produced, commitOk).clearFeatureRqtReceived
      == (g.clearFeatureRqtReceived && VideoBranchOf(g) != Abort)
  {
  }

  /** A link event's effect on the three latches: reset, suspend and disconnect unload the GPIF. */
  lemma LinkEventLatches(g: Globals, ev: UsbEvent)
    ensures var r := UsbEventSpec(g, ev);
      && r.backFlowDetected == g.backFlowDetected
      && r.gpifInitialized == (g.gpifInitialized && ev !in {Reset, Suspend, Disconnect})
      && r.clearFeatureRqtReceived == g.clearFeatureRqtReceived
  {
    match ev {
      case Reset =>
      case Suspend =>
      case Disconnect =>
      case EpUnderrun =>
      case OtherEvent =>
    }
  }

  /** Whether the setup packet makes USBSetupCallback call stopStreaming. */
  predicate SetupStops(g: Globals, s: Setup)
  {
    g.streamingStarted && ((IsVendor(s) && s.bRequest == 0xAF) || IsClearVideoEp(s))
  }

  /** A setup packet never touches the back-flow latch. */
  lemma SetupBackFlow(g: Globals, s: Setup)
    ensures SetupSpec(g, s).backFlowDetected == g.backFlowDetected
  {
    if IsVendor(s) {
    } else if IsUvcRequestTo(s, CONTROL_INTERFACE) {
    } else if IsUvcRequestTo(s, STREAM_INTERFACE) {
    } else if IsClearVideoEp(s) && g.streamingStarted {
    }
  }

  /** A setup packet unloads the GPIF exactly when it stops streaming. */
  lemma SetupGpif(g: Globals, s: Setup)
    ensures SetupSpec(g, s).gpifInitialized == (g.gpifInitialized && !SetupStops(g, s))
  {
    if IsVendor(s) {
    } else if IsUvcRequestTo(s, CONTROL_INTERFACE) {
    } else if IsUvcRequestTo(s, STREAM_INTERFACE) {
    } else if IsClearVideoEp(s) && g.streamingStarted {
    }
  }

  /** Only CLEAR_FEATURE on EP 0x83 while streaming sets clearFeatureRqtReceived, and no setup packet clears it. */
  lemma SetupClearFeature(g: Globals, s: Setup)
    ensures SetupSpec(g, s).clearFeatureRqtReceived
      == (g.clearFeatureRqtReceived || (IsClearVideoEp(s) && g.streamingStarted))
  {
  }

  /** Only a frame end clears the back-flow latch and only a PIB error 0x1005 or 0x1006 sets it. */
  lemma StepBackFlow(g: Globals, e: Event)
    ensures Step(g, e).backFlowDetected
      == ((g.backFlowDetected && !EndsFrame(g, e)) || e in {PibError(0x1005), PibError(0x1006)})
  {
    match e {
      case VideoPass(produced, commitOk) => VideoStepBackFlow(g, produced, commitOk);
      case BufferConsumed =>
      case FrameValid =>
      case PibError(arg) =>
      case ButtonLevel(level) =>
      case LinkEvent(ev) => LinkEventLatches(g, ev);
      case SetupPacket(s) => SetupBackFlow(g, s);
      case ControlPass(linkSpeed, hostOk) =>
    }
  }

  /** Only leaving the idle wait sets gpifInitialized. */
  lemma StepGpif(g: Globals, e: Event)
    ensures Step(g, e).gpifInitialized ==> g.gpifInitialized || LeavesIdle(g, e)
  {
    match e {
      case VideoPass(produced, commitOk) => VideoStepGpif(g, produced, commitOk);
      case BufferConsumed =>
      case FrameValid =>
      case PibError(arg) =>
      case ButtonLevel(level) =>
      case LinkEvent(ev) => LinkEventLatches(g, ev);
      case SetupPacket(s) => SetupGpif(g, s);
      case ControlPass(linkSpeed, hostOk) =>
    }
  }

  /** Only CLEAR_FEATURE on EP 0x83 while streaming sets clearFeatureRqtReceived. */
  lemma StepClearFeature(g: Globals, e: Event)
    ensures Step(g, e).clearFeatureRqtReceived && !g.clearFeatureRqtReceived ==>
      e.SetupPacket? && IsClearVideoEp(e.s) && g.streamingStarted
  {
    match e {
      case VideoPass(produced, commitOk) => VideoStepClearFeature(g, produced, commitOk);
      case BufferConsumed =>
      case FrameValid =>
      case PibError(arg) =>
      case ButtonLevel(level) =>
      case LinkEvent(ev) => LinkEventLatches(g, ev);
      case SetupPacket(s) => SetupClearFeature(g, s);
      case ControlPass(linkSpeed, hostOk) =>
    }
  }

  /** Once latched, backFlowDetected stays set until the next frame end. */
  lemma {:induction false} BackFlowLatched(g: Globals, es: seq<Event>)
    requires g.backFlowDetected
    requires forall i :: 0 <= i < |es| ==> !EndsFrame(Run(g, es[..i]), es[i])
    ensures Run(g, es).backFlowDetected
    decreases |es|
  {
    if es != [] {
      var n := |es| - 1;
      forall i | 0 <= i < n
        ensures !EndsFrame(Run(g, es[..n][..i]), es[..n][i])
      {
        assert es[..n][..i] == es[..i];
      }
      BackFlowLatched(g, es[..n]);
      StepBackFlow(Run(g, es[..n]), es[n]);
    }
  }

  /** backFlowDetected is only ever set by a PIB error 0x1005 or 0x1006. */
  lemma {:induction false} BackFlowOrigin(g: Globals, es: seq<Event>)
    requires !g.backFlowDetected && Run(g, es).backFlowDetected
    ensures exists i :: 0 <= i < |es| && es[i] in {PibError(0x1005), PibError(0x1006)}
    decreases |es|
  {
    var n := |es| - 1;
    if Run(g, es[..n]).backFlowDetected {
      BackFlowOrigin(g, es[..n]);
      var i :| 0 <= i < n && es[..n][i] in {PibError(0x1005), PibError(0x1006)};
      assert es[i] == es[..n][i];
    } else {
      StepBackFlow(Run(g, es[..n]), es[n]);
    }
  }

  /** clearFeatureRqtReceived is set only by the host's CLEAR_FEATURE on EP 0x83 while streaming had started. */
  lemma {:induction false} ClearFeatureOrigin(g: Globals, es: seq<Event>)
    requires !g.clearFeatureRqtReceived && Run(g, es).clearFeatureRqtReceived
    ensures exists i :: 0 <= i < |es| && es[i].SetupPacket? && IsClearVideoEp(es[i].s)
                                     && Run(g, es[..i]).streamingStarted
    decreases |es|
  {
    var n := |es| - 1;
    if Run(g, es[..n]).clearFeatureRqtReceived {
      ClearFeatureOrigin(g, es[..n]);
      var i :| 0 <= i < n && es[..n][i].SetupPacket? && IsClearVideoEp(es[..n][i].s)
                          && Run(g, es[..n][..i]).streamingStarted;
      assert es[..n][..i] == es[..i];
    } else {
      StepClearFeature(Run(g, es[..n]), es[n]);
    }
  }

  /** gpifInitialized is only ever set by leaving the idle wait, which then loads and starts the GPIF. */
  lemma {:induction false} GpifLoadedBeforeUse(g: Globals, es: seq<Event>)
    requires !g.gpifInitialized && Run(g, es).gpifInitialized
    ensures exists i :: 0 <= i < |es| && LeavesIdle(Run(g, es[..i]), es[i]) && !Run(g, es[..i]).gpifInitialized
    decreases |es|
  {
    var n := |es| - 1;
    if Run(g, es[..n]).gpifInitialized {
      GpifLoadedBeforeUse(g, es[..n]);
      var i :| 0 <= i < n && LeavesIdle(Run(g, es[..n][..i]), es[..n][i]) && !Run(g, es[..n][..i]).gpifInitialized;
      assert es[..n][..i] == es[..i];
    } else {
      StepGpif(Run(g, es[..n]), es[n]);
    }
  }

  /** Leaving idle does exactly one of load+start (GPIF not loaded) or a state switch (loaded), and the GPIF is loaded afterwards. */
  lemma LeaveIdleLoadsOrSwitches(g: Globals, produced: Option<nat>, commitOk: bool)
    requires VideoBranchOf(g) == LeaveIdle
    ensures VideoStepSpec(g, produced, commitOk).gpifInitialized
    ensures VideoStepActions(g, produced, commitOk) ==
      if g.gpifInitialized then [DmaSetXfer, GpifSwitch] else [DmaSetXfer, GpifLoad, GpifStart]
  {
  }

  /** Reset, suspend and disconnect unload the GPIF and mark streaming stopped; disconnect also forgets the speed. */
  lemma LinkLossStops(g: Globals, ev: UsbEvent)
    requires ev in {Reset, Suspend, Disconnect}
    ensures var r := UsbEventSpec(g, ev);
      && !r.gpifInitialized && !r.streamingStarted && !r.streamEvent
      && r.abortEvent == (g.abortEvent || g.streamEvent)
      && (ev == Disconnect ==> r.usbSpeed == NotConnected)
      && (ev != Disconnect ==> r.usbSpeed == g.usbSpeed)
  {
  }

  /**
   * The CLEAR_FEATURE handshake: a CLEAR_FEATURE on EP 0x83 while streaming
   * stops streaming (one DMA reset and flush) and turns a pending STREAM_EVENT
   * into an abort; the abort pass then resets nothing again and clears the flag.
   */
  lemma {:induction false} ClearFeatureResetsOnce(g: Globals, s: Setup, produced: Option<nat>, commitOk: bool)
    requires IsClearVideoEp(s) && g.streamingStarted && g.streamEvent && !g.idleWaiting
    ensures var g1 := SetupSpec(g, s);
      && SetupActions(g, s, [0, 0]) == StopActions + [Ep0Ack]
      && g1.clearFeatureRqtReceived && g1.abortEvent && !g1.streamEvent
      && VideoBranchOf(g1) == Abort
      && VideoStepActions(g1, produced, commitOk) == []
      && !VideoStepSpec(g1, produced, commitOk).clearFeatureRqtReceived
  {
    assert !IsVendor(s) && !IsUvcRequestTo(s, CONTROL_INTERFACE) && !IsUvcRequestTo(s, STREAM_INTERFACE);
  }

  /** Without a CLEAR_FEATURE the abort pass resets the DMA channel and flushes EP 0x83 itself. */
  lemma AbortWithoutClearFeature(g: Globals, produced: Option<nat>, commitOk: bool)
    requires VideoBranchOf(g) == Abort && !g.clearFeatureRqtReceived
    ensures VideoStepActions(g, produced, commitOk) == [DmaReset, FlushEp(EP_BULK_VID)]
    ensures var r := VideoStepSpec(g, produced, commitOk);
      !r.abortEvent && !r.hitFV && r.prodCount == 0 && r.consCount == 0 && !r.clearFeatureRqtReceived
  {
  }

  /** Two frame ends give the header back; after the first, the EOF header's bit field equals the header's and has lost its EOF bit. */
  lemma HeaderToggles(n: nat)
    ensures HeaderAfter(n + 2) == HeaderAfter(n)
    ensures HeaderAfter(n + 1)[1] == ToggleFrameId(HeaderAfter(n)[1])
    ensures EofHeaderAfter(n + 1)[1] == HeaderAfter(n + 1)[1]
    ensures (DefaultHeaderEof[1] / 2) % 2 == 1 && (EofHeaderAfter(n + 1)[1] / 2) % 2 == 0
  {
  }

  /** prodCount moves only on a successful commit; the full-buffer test is `count == 16384 - 16`. */
  lemma CommitCounts(g: Globals, produced: Option<nat>, commitOk: bool)
    ensures var c := Committed(g, produced, commitOk);
      && c.prodCount == (if produced.Some? && commitOk then (g.prodCount + 1) % 0x1_0000 else g.prodCount)
      && (c.gotPartial ==> g.gotPartial && (produced.None? || produced.value == FULL_BUFFER_COUNT))
  {
    CountersWrap(g.prodCount);
  }
}
