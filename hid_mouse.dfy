/**
 * The USB HID mouse: each press of the button on GPIO 45 makes the thread
 * send the host a run of 236 two-byte input reports, the relative X and Y
 * moves of a table that takes the cursor round a circle. The USB event
 * callback starts and stops the interrupt endpoint; the setup callback
 * answers FUNCTION_SUSPEND, CLEAR_FEATURE(halt) of the endpoint, the report
 * descriptor request and SET_IDLE.
 */
module HidMouse {
  import opened Bytes
  import opened UsbSetup
  import opened Wrappers

  /** CY_FX_BUTTON_GPIO: the button, active low. */
  const BUTTON_GPIO: byte := 45
  /** CY_FX_HID_EP_INTR_IN: the interrupt IN endpoint of the reports. */
  const EP_INTR_IN: byte := 0x81
  /** The endpoint's packet size and the DMA buffers of its channel. */
  const EP_PACKET_SIZE: nat := 0x40
  const DMA_BUF_COUNT: nat := 20
  /** CY_FX_HID_SET_IDLE, the class request of section 7.2.4 of the HID 1.11 specification. */
  const HID_SET_IDLE: byte := 0x0A
  /** CY_FX_GET_REPORT_DESC: the descriptor type of the report descriptor, in the high byte of wValue. */
  const GET_REPORT_DESC: byte := 0x22
  /** The length GET_DESCRIPTOR sends of the report descriptor. */
  const REPORT_DESC_SEND_LEN: nat := 0x1C
  /** The reports of a run. */
  const REPORT_COUNT: nat := 236

  /**
   * CyFxUSBReportDscr: a mouse application collection holding a physical collection with two
   * relative 8-bit inputs, X and Y, each from -127 to 127.
   */
  const REPORT_DESCRIPTOR: seq<byte> := [
    0x05, 0x01, 0x09, 0x02, 0xA1, 0x01, 0x09, 0x01, 0xA1, 0x00, 0x05, 0x01, 0x09, 0x30, 0x09, 0x31,
    0x15, 0x81, 0x25, 0x7F, 0x75, 0x08, 0x95, 0x02, 0x81, 0x06, 0xC0, 0xC0
  ]

  /** glMouseData: X then Y of each report, two's complement. */
  const MOUSE_DATA: seq<byte> := [
    0x00, 0xF7, 0x01, 0xFA, 0x01, 0xFC, 0x01, 0xFD, 0x01, 0xFD, 0x01, 0xFD, 0x01, 0xFD, 0x01, 0xFC,
    0x01, 0xFE, 0x01, 0xFF, 0x01, 0xFE, 0x01, 0xFE, 0x01, 0xFE, 0x01, 0xFE, 0x01, 0xFE, 0x01, 0xFF,
    0x01, 0xFE, 0x01, 0xFF, 0x01, 0xFE, 0x01, 0xFF, 0x01, 0xFF, 0x01, 0xFF, 0x01, 0xFF, 0x01, 0xFE,
    0x01, 0xFF, 0x01, 0xFF, 0x01, 0xFF, 0x01, 0xFF, 0x01, 0xFE, 0x01, 0xFF, 0x01, 0xFF, 0x01, 0xFF,
    0x01, 0xFF, 0x01, 0xFF, 0x01, 0xFF, 0x02, 0xFF, 0x01, 0xFF, 0x01, 0xFF, 0x01, 0xFF, 0x01, 0xFF,
    0x02, 0xFF, 0x01, 0xFF, 0x02, 0xFF, 0x02, 0xFF, 0x01, 0xFF, 0x02, 0xFF, 0x02, 0xFF, 0x02, 0xFF,
    0x02, 0xFF, 0x02, 0xFF, 0x02, 0xFF, 0x03, 0xFF, 0x03, 0xFF, 0x03, 0xFF, 0x04, 0xFF, 0x03, 0xFF,
    0x04, 0xFF, 0x07, 0xFF, 0x09, 0xFF, 0x09, 0x01, 0x07, 0x01, 0x04, 0x01, 0x03, 0x01, 0x04, 0x01,
    0x03, 0x01, 0x03, 0x01, 0x03, 0x01, 0x02, 0x01, 0x02, 0x01, 0x02, 0x01, 0x02, 0x01, 0x02, 0x01,
    0x02, 0x01, 0x01, 0x01, 0x02, 0x01, 0x02, 0x01, 0x01, 0x01, 0x02, 0x01, 0x01, 0x01, 0x01, 0x01,
    0x01, 0x01, 0x01, 0x01, 0x02, 0x01, 0x01, 0x01, 0x01, 0x01, 0x01, 0x01, 0x01, 0x01, 0x01, 0x01,
    0x01, 0x01, 0x01, 0x02, 0x01, 0x01, 0x01, 0x01, 0x01, 0x01, 0x01, 0x01, 0x01, 0x02, 0x01, 0x01,
    0x01, 0x01, 0x01, 0x01, 0x01, 0x01, 0x01, 0x02, 0x01, 0x01, 0x01, 0x02, 0x01, 0x01, 0x01, 0x02,
    0x01, 0x02, 0x01, 0x02, 0x01, 0x02, 0x01, 0x02, 0x01, 0x01, 0x01, 0x02, 0x01, 0x04, 0x01, 0x03,
    0x01, 0x03, 0x01, 0x03, 0x01, 0x03, 0x01, 0x04, 0x01, 0x05, 0x01, 0x09, 0xFF, 0x09, 0xFF, 0x05,
    0xFF, 0x04, 0xFF, 0x03, 0xFF, 0x03, 0xFF, 0x03, 0xFF, 0x03, 0xFF, 0x04, 0xFF, 0x02, 0xFF, 0x01,
    0xFF, 0x02, 0xFF, 0x02, 0xFF, 0x02, 0xFF, 0x02, 0xFF, 0x02, 0xFF, 0x01, 0xFF, 0x02, 0xFF, 0x01,
    0xFF, 0x02, 0xFF, 0x01, 0xFF, 0x01, 0xFF, 0x01, 0xFF, 0x01, 0xFF, 0x02, 0xFF, 0x01, 0xFF, 0x01,
    0xFF, 0x01, 0xFF, 0x01, 0xFF, 0x02, 0xFF, 0x01, 0xFF, 0x01, 0xFF, 0x01, 0xFF, 0x01, 0xFF, 0x01,
    0xFF, 0x01, 0xFE, 0x01, 0xFF, 0x01, 0xFF, 0x01, 0xFF, 0x01, 0xFF, 0x01, 0xFE, 0x01, 0xFF, 0x01,
    0xFE, 0x01, 0xFE, 0x01, 0xFF, 0x01, 0xFE, 0x01, 0xFE, 0x01, 0xFE, 0x01, 0xFE, 0x01, 0xFE, 0x01,
    0xFE, 0x01, 0xFD, 0x01, 0xFD, 0x01, 0xFD, 0x01, 0xFC, 0x01, 0xFD, 0x01, 0xFC, 0x01, 0xFA, 0x01,
    0xF7, 0x01, 0xF7, 0x00, 0xFA, 0xFF, 0xFB, 0xFF, 0xFD, 0xFF, 0xFC, 0xFF, 0xFD, 0xFF, 0xFD, 0xFF,
    0xFD, 0xFF, 0xFE, 0xFF, 0xFE, 0xFF, 0xFE, 0xFF, 0xFE, 0xFF, 0xFE, 0xFF, 0xFE, 0xFF, 0xFF, 0xFF,
    0xFE, 0xFF, 0xFE, 0xFF, 0xFF, 0xFF, 0xFE, 0xFF, 0xFF, 0xFF, 0xFF, 0xFF, 0xFF, 0xFF, 0xFF, 0xFF,
    0xFE, 0xFF, 0xFF, 0xFF, 0xFF, 0xFF, 0xFF, 0xFF, 0xFF, 0xFF, 0xFF, 0xFF, 0xFF, 0xFF, 0xFF, 0xFE,
    0xFF, 0xFF, 0xFF, 0xFF, 0xFF, 0xFF, 0xFF, 0xFF, 0xFF, 0xFE, 0xFF, 0xFF, 0xFF, 0xFF, 0xFF, 0xFF,
    0xFF, 0xFF, 0xFF, 0xFE, 0xFF, 0xFF, 0xFF, 0xFE, 0xFF, 0xFF, 0xFF, 0xFE, 0xFF, 0xFE, 0xFF, 0xFE,
    0xFF, 0xFE, 0xFF, 0xFE, 0xFF, 0xFF, 0xFF, 0xFE, 0xFF, 0xFC, 0xFF, 0xFD, 0xFF, 0xFD, 0xFF, 0xFD,
    0xFF, 0xFD, 0xFF, 0xFC, 0xFF, 0xFB, 0xFF, 0xF7
  ]

  /** A report table: X and Y for each report of a run. */
  predicate TableShaped(table: seq<byte>)
  {
    |table| == 2 * REPORT_COUNT
  }

  /** Report k of a run: bytes 2k and 2k + 1 of the table. */
  function Report(table: seq<byte>, k: nat): seq<byte>
    requires TableShaped(table) && k < REPORT_COUNT
  {
    [table[2 * k], table[2 * k + 1]]
  }

  /** glMouseData holds exactly one run, and the length sent is that of the whole report descriptor. */
  lemma TableSizes()
    ensures TableShaped(MOUSE_DATA)
    ensures |REPORT_DESCRIPTOR| == REPORT_DESC_SEND_LEN && REPORT_DESCRIPTOR[..REPORT_DESC_SEND_LEN] == REPORT_DESCRIPTOR
  {
  }

  /** The SDK calls and display lines of the HID application, in order. */
  datatype HidAction =
    | Line2(text: string)
    | Line3(caption: string, value: int)
    | ChannelReset
    | ChannelSetXfer
    | CommitBuffer(report: seq<byte>)
    | SetEpConfig(ep: byte, enable: bool, packetSize: nat)
    | ChannelCreate(size: nat, count: nat)
    | FlushEp(ep: byte)
    | ChannelDestroy
    | GpioDeInit
    | Ep0Ack
    | Ep0Stall
    | EpStall(ep: byte)
    | ResetEp(ep: byte)
    | ClearStall(ep: byte)
    | SendEp0(data: seq<byte>)

  /** The outcomes of one report's calls: the buffer get, its retry after a reset, and the commit. */
  datatype Attempt = Attempt(getOk: bool, retryOk: bool, commitOk: bool)

  /** A report whose buffer was got, at once or on the retry. */
  predicate Got(a: Attempt)
  {
    a.getOk || a.retryOk
  }

  /** The reset a failed buffer get or commit is followed by. */
  const RESET_CHANNEL: seq<HidAction> := [ChannelReset, ChannelSetXfer]

  /**
   * The calls for report k: a failed get resets the channel and retries;
   * when a buffer is got, the report is committed, a failed commit resets the
   * channel, and the point is shown.
   */
  function ReportActions(table: seq<byte>, k: nat, a: Attempt): seq<HidAction>
    requires TableShaped(table) && k < REPORT_COUNT
  {
    (if a.getOk then [] else RESET_CHANNEL)
    + (if Got(a) then [CommitBuffer(Report(table, k))] + AfterCommit(k, a) else [])
  }

  /** The calls after the commit of report k. */
  function AfterCommit(k: nat, a: Attempt): seq<HidAction>
  {
    (if a.commitOk then [] else RESET_CHANNEL) + [Line3("point", k)]
  }

  /** The first report of a run whose buffer could not be got even on the retry; the length when there is none. */
  function RunEnd(attempts: seq<Attempt>): (n: nat)
    ensures n <= |attempts|
    ensures forall k :: 0 <= k < n ==> Got(attempts[k])
    ensures n < |attempts| ==> !Got(attempts[n])
  {
    if attempts == [] || !Got(attempts[0]) then 0 else 1 + RunEnd(attempts[1..])
  }

  /** The calls of the first n reports of a run, in order. */
  function ReportsActions(table: seq<byte>, attempts: seq<Attempt>, n: nat): seq<HidAction>
    requires TableShaped(table) && n <= |attempts| <= REPORT_COUNT
  {
    if n == 0 then [] else ReportsActions(table, attempts, n - 1) + ReportActions(table, n - 1, attempts[n - 1])
  }

  /**
   * hidSendReport's calls: "button" shown, then each report in turn until
   * one gets no buffer, whose calls end the run; "done" shown when every
   * report got a buffer.
   */
  function RunActions(table: seq<byte>, attempts: seq<Attempt>): seq<HidAction>
    requires TableShaped(table) && |attempts| == REPORT_COUNT
  {
    var n := RunEnd(attempts);
    [Line2("button")] + ReportsActions(table, attempts, n)
    + (if n == REPORT_COUNT then [Line2("done")] else ReportActions(table, n, attempts[n]))
  }

  /** A run succeeds when every report got a buffer and the last commit succeeded: its status is that of the last call. */
  predicate RunOk(attempts: seq<Attempt>)
    requires |attempts| == REPORT_COUNT
  {
    RunEnd(attempts) == REPORT_COUNT && attempts[REPORT_COUNT - 1].commitOk
  }

  /** The reports of the commits among some calls, in order. */
  function Commits(acts: seq<HidAction>): seq<seq<byte>>
  {
    if acts == [] then []
    else Commits(acts[..|acts| - 1]) + (if acts[|acts| - 1].CommitBuffer? then [acts[|acts| - 1].report] else [])
  }

  lemma {:induction false} CommitsAppend(a: seq<HidAction>, b: seq<HidAction>)
    ensures Commits(a + b) == Commits(a) + Commits(b)
    decreases |b|
  {
    if b == [] {
      assert a + b == a;
    } else {
      var c := b[..|b| - 1];
      assert a + b == (a + c) + [b[|b| - 1]];
      assert (a + b)[..|a + b| - 1] == a + c;
      CommitsAppend(a, c);
    }
  }

  /** The first n reports of the table, in order. */
  function TableReports(table: seq<byte>, n: nat): (rs: seq<seq<byte>>)
    requires TableShaped(table) && n <= REPORT_COUNT
    ensures |rs| == n
    ensures forall k :: 0 <= k < n ==> rs[k] == Report(table, k)
  {
    if n == 0 then [] else TableReports(table, n - 1) + [Report(table, n - 1)]
  }

  /** Calls without a commit contribute no report. */
  lemma {:induction false} CommitsNone(acts: seq<HidAction>)
    requires forall i :: 0 <= i < |acts| ==> !acts[i].CommitBuffer?
    ensures Commits(acts) == []
  {
    if acts != [] {
      CommitsNone(acts[..|acts| - 1]);
    }
  }

  /** A commit followed by what comes after it commits that report alone. */
  lemma CommitThenAfter(report: seq<byte>, k: nat, a: Attempt)
    ensures Commits([CommitBuffer(report)] + AfterCommit(k, a)) == [report]
  {
    var commit := [CommitBuffer(report)];
    var post := AfterCommit(k, a);
    CommitsNone(post);
    assert commit[..0] == [];
    CommitsAppend(commit, post);
  }

  /** A report that got a buffer is committed once, with its table entry; one that got none is not committed. */
  lemma ReportCommits(table: seq<byte>, k: nat, a: Attempt)
    requires TableShaped(table) && k < REPORT_COUNT
    ensures Commits(ReportActions(table, k, a)) == if Got(a) then [Report(table, k)] else []
  {
    var pre: seq<HidAction> := if a.getOk then [] else RESET_CHANNEL;
    CommitsNone(pre);
    if Got(a) {
      CommitThenAfter(Report(table, k), k, a);
      CommitsAppend(pre, [CommitBuffer(Report(table, k))] + AfterCommit(k, a));
    } else {
      assert ReportActions(table, k, a) == pre;
    }
  }

  /** The first n reports of a run, all with a buffer, commit the first n table entries in order. */
  lemma {:induction false} ReportsCommit(table: seq<byte>, attempts: seq<Attempt>, n: nat)
    requires TableShaped(table) && n <= RunEnd(attempts) && |attempts| <= REPORT_COUNT
    ensures Commits(ReportsActions(table, attempts, n)) == TableReports(table, n)
  {
    if n > 0 {
      ReportsCommit(table, attempts, n - 1);
      CommitsAppend(ReportsActions(table, attempts, n - 1), ReportActions(table, n - 1, attempts[n - 1]));
      ReportCommits(table, n - 1, attempts[n - 1]);
    }
  }

  /**
   * A run commits the reports of the table in order, report k being bytes
   * 2k and 2k + 1, up to the first report that gets no buffer; a run in
   * which every report gets one commits all 236.
   */
  lemma {:induction false} RunCommitsTable(table: seq<byte>, attempts: seq<Attempt>)
    requires TableShaped(table) && |attempts| == REPORT_COUNT
    ensures Commits(RunActions(table, attempts)) == TableReports(table, RunEnd(attempts))
    ensures (forall k :: 0 <= k < REPORT_COUNT ==> Got(attempts[k])) ==> |Commits(RunActions(table, attempts))| == REPORT_COUNT
  {
    var n := RunEnd(attempts);
    var tail := if n == REPORT_COUNT then [Line2("done")] else ReportActions(table, n, attempts[n]);
    ReportsCommit(table, attempts, n);
    if n == REPORT_COUNT {
      CommitsNone(tail);
    } else {
      ReportCommits(table, n, attempts[n]);
    }
    CommitsNone([Line2("button")]);
    CommitsAppend([Line2("button")], ReportsActions(table, attempts, n));
    CommitsAppend([Line2("button")] + ReportsActions(table, attempts, n), tail);
  }

  /** The runs that succeeded among some, each a decrement of the press counter. */
  function Successes(runs: seq<seq<Attempt>>): (n: nat)
    requires forall j :: 0 <= j < |runs| ==> |runs[j]| == REPORT_COUNT
    ensures n <= |runs|
  {
    if runs == [] then 0 else Successes(runs[..|runs| - 1]) + (if RunOk(runs[|runs| - 1]) then 1 else 0)
  }

  /** The calls of mouseThread's drain loop: each run, and after a failed one a stall of the endpoint. */
  function DrainActions(table: seq<byte>, runs: seq<seq<Attempt>>): seq<HidAction>
    requires TableShaped(table) && forall j :: 0 <= j < |runs| ==> |runs[j]| == REPORT_COUNT
  {
    if runs == [] then []
    else
      var r := runs[|runs| - 1];
      DrainActions(table, runs[..|runs| - 1]) + RunActions(table, r) + (if RunOk(r) then [] else [EpStall(EP_INTR_IN)])
  }

  /** One more run of the drain loop adds its calls, and its success, to those before. */
  lemma DrainStep(table: seq<byte>, runs: seq<seq<Attempt>>, u: nat)
    requires TableShaped(table) && forall j :: 0 <= j < |runs| ==> |runs[j]| == REPORT_COUNT
    requires u < |runs|
    ensures DrainActions(table, runs[..u + 1])
      == DrainActions(table, runs[..u]) + RunActions(table, runs[u]) + (if RunOk(runs[u]) then [] else [EpStall(EP_INTR_IN)])
    ensures Successes(runs[..u + 1]) == Successes(runs[..u]) + (if RunOk(runs[u]) then 1 else 0)
  {
    assert runs[..u + 1][..u] == runs[..u];
  }

  /** The button interrupt that counts: GPIO 45, read back without error, reading low. */
  predicate Pressed(gpioId: byte, readOk: bool, pinHigh: bool)
  {
    gpioId == BUTTON_GPIO && readOk && !pinHigh
  }

  /** `glButtonPress++` on the 32-bit counter. */
  function Inc32(v: u32): (w: u32)
    ensures v < 0xFFFF_FFFF ==> w == v + 1
    ensures v == 0xFFFF_FFFF ==> w == 0
  {
    if v == 0xFFFF_FFFF then 0 else v + 1
  }

  /** The USB events the HID callback distinguishes. */
  datatype HidEvent = SetConfiguration | BusReset | Disconnect | OtherEvent

  /** CyFxUsbHidAppStart's calls: "start" shown, the endpoint configured and the channel created, up to the first that fails. */
  function StartActions(cfgOk: bool, createOk: bool): seq<HidAction>
  {
    [Line2("start"), SetEpConfig(EP_INTR_IN, true, EP_PACKET_SIZE)]
    + (if !cfgOk then []
       else [ChannelCreate(EP_PACKET_SIZE, DMA_BUF_COUNT)] + (if !createOk then [] else [ChannelSetXfer, FlushEp(EP_INTR_IN)]))
  }

  /** CyFxUsbHidAppStop's calls: "stop" shown, the endpoint flushed, the channel destroyed, the endpoint and then the GPIO block switched off. */
  function StopActions(epOffOk: bool): seq<HidAction>
  {
    [Line2("stop"), FlushEp(EP_INTR_IN), ChannelDestroy, SetEpConfig(EP_INTR_IN, false, 0)]
    + (if epOffOk then [GpioDeInit] else [])
  }

  /** The event stops a running application: SET_CONFIGURATION, reset and disconnect do. */
  predicate Stops(active: bool, ev: HidEvent)
  {
    active && !ev.OtherEvent?
  }

  /** The calls of the event callback; a stop whose calls fail hangs, so a start after it never happens. */
  function EventActions(active: bool, ev: HidEvent, cfgOk: bool, createOk: bool, epOffOk: bool, gpioOffOk: bool): seq<HidAction>
  {
    (if Stops(active, ev) then StopActions(epOffOk) else [])
    + (if ev.SetConfiguration? && !(Stops(active, ev) && !(epOffOk && gpioOffOk)) then StartActions(cfgOk, createOk) else [])
  }

  /** Whether the callback ends in an error handler, which never returns. */
  predicate EventHangs(active: bool, ev: HidEvent, cfgOk: bool, createOk: bool, epOffOk: bool, gpioOffOk: bool)
  {
    var stopHangs := Stops(active, ev) && !(epOffOk && gpioOffOk);
    stopHangs || (ev.SetConfiguration? && !(cfgOk && createOk))
  }

  /**
   * glIsAppActive after an event: SET_CONFIGURATION makes it true when the
   * start's calls succeed; reset and disconnect clear it; a failing call on
   * the way leaves it false; other events leave it as it was.
   */
  lemma EventActivity(active: bool, ev: HidEvent, cfgOk: bool, createOk: bool, epOffOk: bool, gpioOffOk: bool)
    ensures var hangs := EventHangs(active, ev, cfgOk, createOk, epOffOk, gpioOffOk);
      && (ev.SetConfiguration? && !hangs ==>
            EventActions(active, ev, cfgOk, createOk, epOffOk, gpioOffOk) == (if active then StopActions(true) else []) + StartActions(true, true))
      && (ev.OtherEvent? ==> EventActions(active, ev, cfgOk, createOk, epOffOk, gpioOffOk) == [] && !hangs)
      && ((ev.BusReset? || ev.Disconnect?) && !active ==> EventActions(active, ev, cfgOk, createOk, epOffOk, gpioOffOk) == [])
  {
  }

  /** SET_FEATURE or CLEAR_FEATURE to an interface with wValue 0: FUNCTION_SUSPEND. */
  predicate IsFunctionSuspend(s: Setup)
  {
    RequestType(s.bmRequestType) == STANDARD_RQT && Target(s.bmRequestType) == TARGET_INTF
    && (s.bRequest == SC_SET_FEATURE || s.bRequest == SC_CLEAR_FEATURE) && s.wValue == 0
  }

  /** CLEAR_FEATURE(ENDPOINT_HALT) of the interrupt endpoint. */
  predicate IsClearHalt(s: Setup)
  {
    RequestType(s.bmRequestType) == STANDARD_RQT && Target(s.bmRequestType) == TARGET_ENDPT
    && s.bRequest == SC_CLEAR_FEATURE && s.wValue == EP_HALT && s.wIndex == EP_INTR_IN as u16
  }

  /** A standard GET_DESCRIPTOR whose wValue high byte asks for the report descriptor, to any recipient. */
  predicate IsReportDescriptorRequest(s: Setup)
  {
    RequestType(s.bmRequestType) == STANDARD_RQT && s.bRequest == SC_GET_DESCRIPTOR && s.wValue / 0x100 == GET_REPORT_DESC
  }

  /** The class request SET_IDLE. */
  predicate IsSetIdle(s: Setup)
  {
    RequestType(s.bmRequestType) == CLASS_RQT && s.bRequest == HID_SET_IDLE
  }

  /** The requests the setup callback handles; CLEAR_FEATURE(halt) only while the application is active. */
  predicate SetupHandled(active: bool, s: Setup)
  {
    IsFunctionSuspend(s) || (IsClearHalt(s) && active) || IsReportDescriptorRequest(s) || IsSetIdle(s)
  }

  /** The endpoint recovery of CLEAR_FEATURE(halt): channel reset, flush, endpoint reset, stall cleared, then the status stage. */
  const CLEAR_HALT_ACTIONS: seq<HidAction> := [ChannelReset, FlushEp(EP_INTR_IN), ResetEp(EP_INTR_IN), ClearStall(EP_INTR_IN), Ep0Ack]

  /** The setup callback's calls, in the order of its tests; `sendOk` is the outcome of sending the report descriptor. */
  function SetupActions(active: bool, s: Setup, sendOk: bool): seq<HidAction>
  {
    (if IsFunctionSuspend(s) then [if active then Ep0Ack else Ep0Stall] else [])
    + (if IsClearHalt(s) && active then CLEAR_HALT_ACTIONS else [])
    + (if IsReportDescriptorRequest(s) then [SendEp0(REPORT_DESCRIPTOR[..REPORT_DESC_SEND_LEN])] + (if sendOk then [] else [Ep0Stall]) else [])
    + (if IsSetIdle(s) then [Ep0Ack] else [])
  }

  /** FUNCTION_SUSPEND is handled, acknowledged while active and stalled otherwise, and nothing else is done. */
  lemma FunctionSuspendAnswer(active: bool, s: Setup, sendOk: bool)
    requires IsFunctionSuspend(s)
    ensures SetupHandled(active, s)
    ensures SetupActions(active, s, sendOk) == [if active then Ep0Ack else Ep0Stall]
  {
  }

  /** CLEAR_FEATURE(halt) of the endpoint recovers it while active; otherwise it is left to the driver, unanswered here. */
  lemma ClearHaltAnswer(active: bool, s: Setup, sendOk: bool)
    requires IsClearHalt(s)
    ensures SetupHandled(active, s) <==> active
    ensures SetupActions(active, s, sendOk) == if active then CLEAR_HALT_ACTIONS else []
  {
  }

  /** The report descriptor request is handled by sending all 28 bytes of the report descriptor, with a stall if that fails. */
  lemma ReportDescriptorAnswer(active: bool, s: Setup, sendOk: bool)
    requires IsReportDescriptorRequest(s)
    ensures SetupHandled(active, s)
    ensures SetupActions(active, s, sendOk) == [SendEp0(REPORT_DESCRIPTOR)] + (if sendOk then [] else [Ep0Stall])
  {
    TableSizes();
  }

  /** SET_IDLE is handled and acknowledged, nothing else. */
  lemma SetIdleAnswer(active: bool, s: Setup, sendOk: bool)
    requires IsSetIdle(s)
    ensures SetupHandled(active, s)
    ensures SetupActions(active, s, sendOk) == [Ep0Ack]
  {
  }

  class HidDevice {
    /** glIsAppActive. */
    var active: bool
    /** glButtonPress: presses not yet answered by a run. */
    var buttonPress: u32
    /** The GPIO event flag of glHidAppEvent. */
    var eventSet: bool
    /** SDK calls and display lines so far. */
    var log: seq<HidAction>
    /** The USB callbacks have entered CyFxAppErrorHandler, which never returns. */
    var hung: bool
    /** glMouseData. */
    const table: seq<byte>

    /** The zero-initialised statics over the report table. */
    constructor ()
      ensures table == MOUSE_DATA && TableShaped(table)
      ensures !active && buttonPress == 0 && !eventSet && log == [] && !hung
    {
      TableSizes();
      table := MOUSE_DATA;
      active, buttonPress, eventSet, log, hung := false, 0, false, [], false;
    }

    /** One pass of hidSendReport's loop: the buffer got, retried once after a reset; the report committed, a reset after a failed commit; the point shown. */
    method SendOne(k: nat, a: Attempt) returns (got: bool, committed: bool)
      requires TableShaped(table) && k < REPORT_COUNT
      modifies this`log
      ensures got == Got(a) && (got ==> committed == a.commitOk)
      ensures log == old(log) + ReportActions(table, k, a)
    {
      got, committed := a.getOk, false;
      if !got {
        log := log + RESET_CHANNEL;
        got := a.retryOk;
        if !got {
          return;
        }
      }
      var report := [table[2 * k], table[2 * k + 1]];
      log := log + [CommitBuffer(report)];
      committed := a.commitOk;
      if !committed {
        log := log + RESET_CHANNEL;
      }
      log := log + [Line3("point", k)];
    }

    /**
     * hidSendReport: the reports of the table one after another while
     * buffers can be got. The result is the status of the last call: a run
     * that gets every buffer succeeds exactly when its last commit does.
     */
    method SendReport(attempts: seq<Attempt>) returns (ok: bool)
      requires TableShaped(table) && |attempts| == REPORT_COUNT
      modifies this`log
      ensures ok <==> RunOk(attempts)
      ensures log == old(log) + RunActions(table, attempts)
    {
      log := log + [Line2("button")];
      var status := true;
      var i: u16 := 0;
      var k: nat := 0;
      // The do-while's first pass runs with i == 0, which also passes this test.
      while i as int != 2 * REPORT_COUNT
        invariant i as int == 2 * k && k <= REPORT_COUNT && k <= RunEnd(attempts)
        invariant log == old(log) + [Line2("button")] + ReportsActions(table, attempts, k)
        invariant k != 0 ==> status == attempts[k - 1].commitOk
        decreases REPORT_COUNT - k
      {
        var got, committed := SendOne(k, attempts[k]);
        AppendAssoc(old(log) + [Line2("button")], ReportsActions(table, attempts, k), ReportActions(table, k, attempts[k]));
        if !got {
          assert RunEnd(attempts) == k;
          ok := false;
          return;
        }
        status := committed;
        i, k := i + 2, k + 1;
      }
      log := log + [Line2("done")];
      ok := status;
    }

    /**
     * mouseThread's drain loop: while presses are pending, run a report
     * sequence; a successful run answers one press, a failed one stalls
     * the endpoint and the loop tries again. The counter is decremented only
     * while it is non-zero, so it never underflows. `runs` are the outcomes
     * of the runs the loop may make; it stops when they are used up.
     */
    method DrainPresses(runs: seq<seq<Attempt>>) returns (used: nat)
      requires TableShaped(table) && forall j :: 0 <= j < |runs| ==> |runs[j]| == REPORT_COUNT
      modifies this`log, this`buttonPress
      ensures used <= |runs| && (buttonPress == 0 || used == |runs|)
      ensures Successes(runs[..used]) <= old(buttonPress)
      ensures buttonPress == old(buttonPress) - Successes(runs[..used])
      ensures log == old(log) + DrainActions(table, runs[..used])
    {
      used := 0;
      while buttonPress != 0 && used < |runs|
        invariant used <= |runs|
        invariant buttonPress as int == old(buttonPress) as int - Successes(runs[..used])
        invariant log == old(log) + DrainActions(table, runs[..used])
        decreases |runs| - used
      {
        DrainStep(table, runs, used);
        ghost var done := DrainActions(table, runs[..used]);
        ghost var stall: seq<HidAction> := if RunOk(runs[used]) then [] else [EpStall(EP_INTR_IN)];
        var ok := SendReport(runs[used]);
        if ok {
          buttonPress := buttonPress - 1;
        } else {
          log := log + [EpStall(EP_INTR_IN)];
        }
        AppendAssoc(old(log), done, RunActions(table, runs[used]));
        AppendAssoc(old(log), done + RunActions(table, runs[used]), stall);
        assert log == old(log) + (done + RunActions(table, runs[used])) + stall;
        used := used + 1;
      }
    }

    /**
     * One wake-up of mouseThread: the wait returns once the GPIO event is
     * set and clears it as it is taken; a successful wait goes on to the
     * drain loop, a failed one leaves everything else as it was.
     */
    method ThreadWake(getOk: bool, runs: seq<seq<Attempt>>) returns (used: nat)
      requires eventSet
      requires TableShaped(table) && forall j :: 0 <= j < |runs| ==> |runs[j]| == REPORT_COUNT
      modifies this`eventSet, this`log, this`buttonPress
      ensures eventSet == !getOk && used <= |runs|
      ensures !getOk ==> used == 0 && log == old(log) && buttonPress == old(buttonPress)
      ensures getOk ==> buttonPress == 0 || used == |runs|
      ensures buttonPress == old(buttonPress) - Successes(runs[..used])
      ensures log == old(log) + DrainActions(table, runs[..used])
    {
      used := 0;
      if getOk {
        eventSet := false;
        used := DrainPresses(runs);
      }
    }

    /** CyFxHidGpioInterruptCallback: a press counts, and sets the thread's event, only for GPIO 45 read back low. */
    method GpioInterrupt(gpioId: byte, readOk: bool, pinHigh: bool)
      modifies this`buttonPress, this`eventSet
      ensures buttonPress == if Pressed(gpioId, readOk, pinHigh) then Inc32(old(buttonPress)) else old(buttonPress)
      ensures eventSet == (old(eventSet) || Pressed(gpioId, readOk, pinHigh))
    {
      if gpioId == BUTTON_GPIO {
        if readOk {
          if !pinHigh {
            buttonPress := Inc32(buttonPress);
            eventSet := true;
          }
        }
      }
    }

    /** CyFxUsbHidAppStart; a failed endpoint configuration or channel creation enters the error handler. */
    method Start(cfgOk: bool, createOk: bool)
      modifies this`active, this`log, this`hung
      ensures log == old(log) + StartActions(cfgOk, createOk)
      ensures hung == (old(hung) || !(cfgOk && createOk))
      ensures active == ((cfgOk && createOk) || old(active))
    {
      log := log + [Line2("start")];
      log := log + [SetEpConfig(EP_INTR_IN, true, EP_PACKET_SIZE)];
      if !cfgOk {
        hung := true;
        return;
      }
      log := log + [ChannelCreate(EP_PACKET_SIZE, DMA_BUF_COUNT)];
      if !createOk {
        hung := true;
        return;
      }
      log := log + [ChannelSetXfer];
      log := log + [FlushEp(EP_INTR_IN)];
      active := true;
    }

    /** CyFxUsbHidAppStop: inactive first; a failed endpoint disable or GPIO de-initialisation enters the error handler. */
    method Stop(epOffOk: bool, gpioOffOk: bool)
      modifies this`active, this`log, this`hung
      ensures !active && log == old(log) + StopActions(epOffOk)
      ensures hung == (old(hung) || !(epOffOk && gpioOffOk))
    {
      log := log + [Line2("stop")];
      active := false;
      log := log + [FlushEp(EP_INTR_IN)];
      log := log + [ChannelDestroy];
      log := log + [SetEpConfig(EP_INTR_IN, false, 0)];
      if !epOffOk {
        hung := true;
        return;
      }
      log := log + [GpioDeInit];
      if !gpioOffOk {
        hung := true;
      }
    }

    /** CyFxUsbHidAppUSBEventCallback: SET_CONFIGURATION stops a running application and starts it; reset and disconnect stop it. */
    method UsbEventCallback(ev: HidEvent, cfgOk: bool, createOk: bool, epOffOk: bool, gpioOffOk: bool)
      requires !hung
      modifies this`active, this`log, this`hung
      ensures log == old(log) + EventActions(old(active), ev, cfgOk, createOk, epOffOk, gpioOffOk)
      ensures hung == EventHangs(old(active), ev, cfgOk, createOk, epOffOk, gpioOffOk)
      ensures active == if ev.SetConfiguration? then !hung else old(active) && ev.OtherEvent?
    {
      if ev.SetConfiguration? {
        if active {
          Stop(epOffOk, gpioOffOk);
          if hung {
            return;
          }
        }
        Start(cfgOk, createOk);
      } else if ev.BusReset? || ev.Disconnect? {
        if active {
          Stop(epOffOk, gpioOffOk);
        }
      }
    }

    /**
     * CyFxUsbHidAppUSBSetupCallback: FUNCTION_SUSPEND, CLEAR_FEATURE(halt)
     * of the endpoint while active, the report descriptor and SET_IDLE are
     * handled; SET_IDLE also clears the pending presses.
     */
    method SetupCallback(setupdat0: u32, setupdat1: u32, sendOk: bool) returns (handled: bool)
      requires !hung
      modifies this`log, this`buttonPress
      ensures var s := Decode(setupdat0, setupdat1);
        && handled == SetupHandled(active, s)
        && log == old(log) + SetupActions(active, s, sendOk)
        && buttonPress == if IsSetIdle(s) then 0 else old(buttonPress)
    {
      var s := Decode(setupdat0, setupdat1);
      var bType := RequestType(s.bmRequestType);
      var bTarget := Target(s.bmRequestType);
      handled := false;
      if bType == STANDARD_RQT {
        if bTarget == TARGET_INTF && (s.bRequest == SC_SET_FEATURE || s.bRequest == SC_CLEAR_FEATURE) && s.wValue == 0 {
          if active {
            log := log + [Ep0Ack];
          } else {
            log := log + [Ep0Stall];
          }
          handled := true;
        }
        if bTarget == TARGET_ENDPT && s.bRequest == SC_CLEAR_FEATURE && s.wValue == EP_HALT {
          if s.wIndex == EP_INTR_IN as u16 {
            if active {
              log := log + CLEAR_HALT_ACTIONS;
              handled := true;
            }
          }
        }
        if s.bRequest == SC_GET_DESCRIPTOR && s.wValue / 0x100 == GET_REPORT_DESC {
          handled := true;
          log := log + [SendEp0(REPORT_DESCRIPTOR[..REPORT_DESC_SEND_LEN])];
          if !sendOk {
            log := log + [Ep0Stall];
          }
        }
      } else if bType == CLASS_RQT {
        if s.bRequest == HID_SET_IDLE {
          log := log + [Ep0Ack];
          buttonPress := 0;
          handled := true;
        }
      }
    }
  }
}
