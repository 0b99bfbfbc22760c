/**
 * The USB Audio Class device that streams a PCM sample stored in SPI flash:
 * the thread reads the flash eight 256-byte pages at a time into a 2048-byte
 * buffer and cuts it into 96-byte isochronous packets, carrying a short tail
 * over into the next packet; the USB event callback starts and stops the
 * stream on SET_INTERFACE; the setup callback answers FUNCTION_SUSPEND.
 */
module UacAudio {
  import opened Bytes
  import opened UsbSetup
  import opened Wrappers

  /** glSpiPageSize: the flash page, fixed at 256 bytes by CyFxUacSpiInit(0x100). */
  const SPI_PAGE_SIZE: int := 0x100
  /** The SPI flash is addressed with 24 bits. */
  const FLASH_SIZE: int := 0x100_0000
  /** Pages per flash read, and the 2048 bytes they fill. */
  const READ_PAGES: int := 8
  const SPI_BUFFER_SIZE: int := 2048
  /** CY_FX3_ISO_XFER_LEN: the bytes of every isochronous packet. */
  const ISO_XFER_LEN: int := 96
  /** CY_FX3_AUDIO_SAMPLE_SIZE_IN_PAGES. */
  const AUDIO_SAMPLE_SIZE_IN_PAGES: int := 0x3CD
  /** The flash read command. */
  const SPI_READ: byte := 0x03
  /** The isochronous audio IN endpoint, and the streaming interface's alternate setting. */
  const EP_ISO_AUDIO: byte := 0x81
  const STREAM_INTERFACE: int := 1
  const STREAM_BUF_COUNT: int := 16

  /** `byteCount / glSpiPageSize`, plus one for a partial last page: the pages a transfer touches. */
  function PageCount(byteCount: u16): (n: nat)
    ensures n * SPI_PAGE_SIZE >= byteCount
    ensures byteCount > 0 ==> (n - 1) * SPI_PAGE_SIZE < byteCount
    ensures byteCount == 0 <==> n == 0
  {
    byteCount / SPI_PAGE_SIZE + (if byteCount % SPI_PAGE_SIZE != 0 then 1 else 0)
  }

  /**
   * The four command bytes for a read at a byte address: 0x03, then the
   * address bits 23..16, 15..8 and 7..0; the flash sees the address modulo
   * its 24-bit space.
   */
  function ReadCommand(byteAddress: nat): (c: seq<byte>)
    ensures |c| == 4 && c[0] == SPI_READ
    ensures c[1] as int * 0x1_0000 + c[2] as int * 0x100 + c[3] as int == byteAddress % FLASH_SIZE
  {
    Address24(byteAddress);
    [SPI_READ, (byteAddress / 0x1_0000) % 0x100, (byteAddress / 0x100) % 0x100, byteAddress % 0x100]
  }

  /** The three address bytes of a command are the address modulo 2^24, most significant first. */
  lemma Address24(x: nat)
    ensures ((x / 0x1_0000) % 0x100) * 0x1_0000 + ((x / 0x100) % 0x100) * 0x100 + x % 0x100 == x % FLASH_SIZE
  {
    var q, r0 := x / 0x100, x % 0x100;
    assert x == 0x100 * q + r0;
    var q2, r1 := q / 0x100, q % 0x100;
    assert q == 0x100 * q2 + r1;
    assert x == 0x1_0000 * q2 + (0x100 * r1 + r0);
    assert x / 0x1_0000 == q2;
    var q3, r2 := q2 / 0x100, q2 % 0x100;
    assert q2 == 0x100 * q3 + r2;
    var low := r2 * 0x1_0000 + r1 * 0x100 + r0;
    assert x == FLASH_SIZE * q3 + low;
    assert 0 <= low < FLASH_SIZE;
  }

  /** The commands of the first n pages of a transfer starting at a page address, one per page in order. */
  function ReadCommands(pageAddress: nat, n: nat): (cs: seq<seq<byte>>)
    ensures |cs| == n
    ensures forall k :: 0 <= k < n ==> cs[k] == ReadCommand((pageAddress + k) * SPI_PAGE_SIZE)
  {
    seq(n, k requires 0 <= k < n => ReadCommand((pageAddress + k) * SPI_PAGE_SIZE))
  }

  /** The 256 bytes the flash returns for a read at a page-aligned byte address. */
  function FlashPage(flash: seq<byte>, byteAddress: nat): (p: seq<byte>)
    requires |flash| == FLASH_SIZE && byteAddress % SPI_PAGE_SIZE == 0
    ensures |p| == SPI_PAGE_SIZE
  {
    var a := byteAddress % FLASH_SIZE;
    assert a % SPI_PAGE_SIZE == 0;
    flash[a .. a + SPI_PAGE_SIZE]
  }

  /** The bytes of the first n pages read from a page address, in order. */
  function PagesRead(flash: seq<byte>, pageAddress: nat, n: nat): (bytes: seq<byte>)
    requires |flash| == FLASH_SIZE
    ensures |bytes| == n * SPI_PAGE_SIZE
  {
    if n == 0 then [] else PagesRead(flash, pageAddress, n - 1) + FlashPage(flash, (pageAddress + n - 1) * SPI_PAGE_SIZE)
  }

  /** Within the flash, consecutive pages read back as one contiguous range of bytes. */
  lemma {:induction false} PagesContiguous(flash: seq<byte>, pageAddress: nat, n: nat)
    requires |flash| == FLASH_SIZE && (pageAddress + n) * SPI_PAGE_SIZE <= FLASH_SIZE
    ensures PagesRead(flash, pageAddress, n) == flash[pageAddress * SPI_PAGE_SIZE .. (pageAddress + n) * SPI_PAGE_SIZE]
  {
    if n > 0 {
      PagesContiguous(flash, pageAddress, n - 1);
      var a := (pageAddress + n - 1) * SPI_PAGE_SIZE;
      assert a % FLASH_SIZE == a;
      assert flash[pageAddress * SPI_PAGE_SIZE .. (pageAddress + n) * SPI_PAGE_SIZE]
        == flash[pageAddress * SPI_PAGE_SIZE .. a] + flash[a .. a + SPI_PAGE_SIZE];
    }
  }

  /** One refill of the thread's buffer: eight pages from a page address. */
  function Block(flash: seq<byte>, pageAddress: nat): (b: seq<byte>)
    requires |flash| == FLASH_SIZE
    ensures |b| == SPI_BUFFER_SIZE
  {
    PagesRead(flash, pageAddress, READ_PAGES)
  }

  /** Everything the thread has read from the flash: the blocks at the given page addresses, in order. */
  function FlashStream(flash: seq<byte>, addrs: seq<nat>): (s: seq<byte>)
    requires |flash| == FLASH_SIZE
    ensures |s| == |addrs| * SPI_BUFFER_SIZE
  {
    if addrs == [] then [] else FlashStream(flash, addrs[..|addrs| - 1]) + Block(flash, addrs[|addrs| - 1])
  }

  /** The packets committed to the host, concatenated. */
  function Flatten(ps: seq<seq<byte>>): seq<byte>
  {
    if ps == [] then [] else Flatten(ps[..|ps| - 1]) + ps[|ps| - 1]
  }

  lemma FlattenSnoc(ps: seq<seq<byte>>, p: seq<byte>)
    ensures Flatten(ps + [p]) == Flatten(ps) + p
  {
    assert (ps + [p])[..|ps|] == ps;
  }

  lemma FlashStreamSnoc(flash: seq<byte>, addrs: seq<nat>, a: nat)
    requires |flash| == FLASH_SIZE
    ensures FlashStream(flash, addrs + [a]) == FlashStream(flash, addrs) + Block(flash, a)
  {
    assert (addrs + [a])[..|addrs|] == addrs;
  }

  /**
   * The page address after a block has been read from p and a packet
   * committed: p + 8, back to 0 once that reaches the sample size 0x3CD.
   */
  function AddrAfter(p: nat): nat
  {
    if p + READ_PAGES >= AUDIO_SAMPLE_SIZE_IN_PAGES then 0 else p + READ_PAGES
  }

  /** The page address of the k-th read when no commit fails: 0, 8, ..., 968, then 0 again. */
  function ReadAddress(k: nat): nat
  {
    READ_PAGES * (k % 122)
  }

  /** Each read address is the one after the previous, so the thread cycles through the reads above. */
  lemma ReadAddressNext(k: nat)
    ensures AddrAfter(ReadAddress(k)) == ReadAddress(k + 1)
  {
    if k % 122 == 121 {
      assert (k + 1) % 122 == 0;
    } else {
      assert (k + 1) % 122 == k % 122 + 1;
    }
  }

  /**
   * A cycle is 122 reads of pages 0 through 975: the last read starts below
   * the sample size 0x3CD and runs three pages past it.
   */
  lemma CycleCoversPastSample()
    ensures ReadAddress(0) == 0 && ReadAddress(121) == 968 && ReadAddress(122) == 0
    ensures forall k :: 0 <= k < 121 ==> ReadAddress(k + 1) == ReadAddress(k) + READ_PAGES
    ensures ReadAddress(121) < AUDIO_SAMPLE_SIZE_IN_PAGES < ReadAddress(121) + READ_PAGES
    ensures ReadAddress(121) + READ_PAGES - AUDIO_SAMPLE_SIZE_IN_PAGES == 3
  {
  }

  /** The first n reads of a cycle. */
  function CycleReads(n: nat): (addrs: seq<nat>)
    ensures |addrs| == n
    ensures forall k :: 0 <= k < n ==> addrs[k] == ReadAddress(k)
  {
    seq(n, k requires 0 <= k < n => ReadAddress(k))
  }

  /** Within the first cycle the reads return the flash from address 0 onwards, without gap or repeat. */
  lemma {:induction false} FirstCycleIsFlashPrefix(flash: seq<byte>, n: nat)
    requires |flash| == FLASH_SIZE && n <= 122
    ensures FlashStream(flash, CycleReads(n)) == flash[..n * SPI_BUFFER_SIZE]
  {
    if n > 0 {
      var m := n - 1;
      FirstCycleIsFlashPrefix(flash, m);
      assert CycleReads(n) == CycleReads(m) + [ReadAddress(m)];
      FlashStreamSnoc(flash, CycleReads(m), ReadAddress(m));
      FirstCycleStep(flash, m);
    }
  }

  /** The m-th read of the first cycle returns the 2048 bytes after the first m blocks of the flash. */
  lemma FirstCycleStep(flash: seq<byte>, m: nat)
    requires |flash| == FLASH_SIZE && m < 122
    ensures flash[..(m + 1) * SPI_BUFFER_SIZE] == flash[..m * SPI_BUFFER_SIZE] + Block(flash, ReadAddress(m))
  {
    assert ReadAddress(m) == READ_PAGES * m;
    var lo := m * SPI_BUFFER_SIZE;
    assert READ_PAGES * m * SPI_PAGE_SIZE == lo && (READ_PAGES * m + READ_PAGES) * SPI_PAGE_SIZE == lo + SPI_BUFFER_SIZE;
    PagesContiguous(flash, READ_PAGES * m, READ_PAGES);
    assert (m + 1) * SPI_BUFFER_SIZE == lo + SPI_BUFFER_SIZE;
    assert flash[..lo + SPI_BUFFER_SIZE] == flash[..lo] + flash[lo .. lo + SPI_BUFFER_SIZE];
  }

  /**
   * While no commit has failed within the first cycle, the packets committed
   * are the flash from address 0 onwards: every byte read is committed or
   * pending, in read order, and the reads of a cycle are contiguous.
   */
  lemma CommittedIsFlashPrefix(flash: seq<byte>, committed: seq<seq<byte>>, attempted: seq<byte>, pending: seq<byte>, addrs: seq<nat>)
    requires |flash| == FLASH_SIZE && |addrs| <= 122
    requires forall k :: 0 <= k < |addrs| ==> addrs[k] == ReadAddress(k)
    requires FlashStream(flash, addrs) == attempted + pending && Flatten(committed) == attempted
    ensures Flatten(committed) == flash[..|Flatten(committed)|]
  {
    CycleStreamIsFlashPrefix(flash, addrs);
    PrefixOfPrefix(attempted, pending, flash, |addrs| * SPI_BUFFER_SIZE);
  }

  /** Reads that follow the cycle return the flash from address 0, while within the first cycle. */
  lemma CycleStreamIsFlashPrefix(flash: seq<byte>, addrs: seq<nat>)
    requires |flash| == FLASH_SIZE && |addrs| <= 122
    requires forall k :: 0 <= k < |addrs| ==> addrs[k] == ReadAddress(k)
    ensures FlashStream(flash, addrs) == flash[..|addrs| * SPI_BUFFER_SIZE]
  {
    assert addrs == CycleReads(|addrs|);
    FirstCycleIsFlashPrefix(flash, |addrs|);
  }

  lemma PrefixOfPrefix<T>(a: seq<T>, b: seq<T>, s: seq<T>, m: nat)
    requires m <= |s| && a + b == s[..m]
    ensures a == s[..|a|]
  {
    assert a == (a + b)[..|a|];
  }

  /** The streaming thread's locals: the next page address, the unsent bytes of spiBuffer and where they start, and the carried tail. */
  datatype Cursor = Cursor(pageAddress: u16, dataCount: u16, offset: u16, partialBuf: bool, dataCopyOffset: u16)

  /**
   * The thread's history, for the proofs: the page addresses read, the
   * bytes of every buffer handed to a commit, whether every commit has
   * succeeded, and whether one has since the last read.
   */
  datatype History = History(readAddrs: seq<nat>, attempted: seq<byte>, lossless: bool, committedSinceRead: bool)

  /** `pageAddress += 8` on the 16-bit local. */
  function Advance(p: u16): (q: u16)
    ensures p as int + READ_PAGES < 0x1_0000 ==> q as int == p as int + READ_PAGES
  {
    ((p as int + READ_PAGES) % 0x1_0000) as u16
  }

  /** The wrap after a successful commit: back to page 0 from the sample size on. */
  function Wrap(p: u16): u16
  {
    if p as int >= AUDIO_SAMPLE_SIZE_IN_PAGES then 0 else p
  }

  /** The buffer sizes, and the unsent bytes and the carried tail within them. */
  predicate Shaped(buf: seq<byte>, usb: seq<byte>, c: Cursor)
  {
    && |buf| == SPI_BUFFER_SIZE && |usb| == ISO_XFER_LEN
    && c.offset as int + c.dataCount as int <= SPI_BUFFER_SIZE
    && (c.partialBuf ==> 0 < c.dataCopyOffset as int < ISO_XFER_LEN)
  }

  /** The bytes read but not yet handed to a commit: the carried tail, then the unsent part of spiBuffer. */
  function PendingBytes(buf: seq<byte>, usb: seq<byte>, c: Cursor): seq<byte>
    requires Shaped(buf, usb, c)
  {
    (if c.partialBuf then usb[..c.dataCopyOffset] else []) + buf[c.offset .. c.offset as int + c.dataCount as int]
  }

  /** Every committed buffer is one 96-byte packet; while no commit has failed they are exactly the bytes handed over. */
  ghost predicate PacketsOk(committed: seq<seq<byte>>, h: History)
  {
    && (forall i :: 0 <= i < |committed| ==> |committed[i]| == ISO_XFER_LEN)
    && (h.lossless ==> Flatten(committed) == h.attempted)
  }

  /**
   * While no commit has failed, the reads follow the cycle 0, 8, ..., 968,
   * 0, ..., and the next page address is 8 past the last read until a
   * commit succeeds, which applies the wrap at 0x3CD.
   */
  ghost predicate AddressingOk(c: Cursor, h: History)
  {
    h.lossless ==>
      && (forall k :: 0 <= k < |h.readAddrs| ==> h.readAddrs[k] == ReadAddress(k))
      && (h.readAddrs == [] ==> c.pageAddress == 0 && c.dataCount == 0 && !c.partialBuf)
      && (h.readAddrs != [] ==>
            c.pageAddress as int == if h.committedSinceRead then AddrAfter(h.readAddrs[|h.readAddrs| - 1])
                                    else h.readAddrs[|h.readAddrs| - 1] + READ_PAGES)
  }

  /** Every byte read from the flash has been handed to a commit or is pending, in read order. */
  ghost predicate StreamCore(flash: seq<byte>, buf: seq<byte>, usb: seq<byte>, c: Cursor, h: History, committed: seq<seq<byte>>)
  {
    && |flash| == FLASH_SIZE && Shaped(buf, usb, c)
    && FlashStream(flash, h.readAddrs) == h.attempted + PendingBytes(buf, usb, c)
    && PacketsOk(committed, h) && AddressingOk(c, h)
  }

  /**
   * The invariant between passes of the streaming loop: StreamCore, a
   * carried tail only once spiBuffer is used up, and no pass since the last
   * read has moved data without committing it.
   */
  ghost predicate BetweenPasses(flash: seq<byte>, buf: seq<byte>, usb: seq<byte>, c: Cursor, h: History, committed: seq<seq<byte>>)
  {
    && StreamCore(flash, buf, usb, c, h, committed)
    && (c.partialBuf ==> c.dataCount == 0)
    && (h.lossless && h.readAddrs != [] && !h.committedSinceRead ==>
          c.dataCount as int == SPI_BUFFER_SIZE && c.offset == 0 && !c.partialBuf)
  }

  /** A full USB buffer waiting for its commit: the bytes read are those handed over, then the buffer, then the pending ones. */
  ghost predicate PacketReady(flash: seq<byte>, buf: seq<byte>, usb: seq<byte>, c: Cursor, h: History, committed: seq<seq<byte>>)
  {
    && |flash| == FLASH_SIZE && Shaped(buf, usb, c) && !c.partialBuf && h.readAddrs != []
    && FlashStream(flash, h.readAddrs) == h.attempted + usb + PendingBytes(buf, usb, c)
    && PacketsOk(committed, h) && AddressingOk(c, h)
  }

  /**
   * The refill of a used-up buffer with the block at `pageAddress` keeps
   * every byte accounted for and the reads in their cycle; the new bytes
   * follow the carried tail.
   */
  lemma RefillKeepsCore(flash: seq<byte>, buf: seq<byte>, usb: seq<byte>, c: Cursor, h: History, committed: seq<seq<byte>>)
    requires BetweenPasses(flash, buf, usb, c, h, committed) && c.dataCount == 0
    ensures var c' := c.(dataCount := SPI_BUFFER_SIZE as u16, offset := 0, pageAddress := Advance(c.pageAddress));
      var h' := h.(readAddrs := h.readAddrs + [c.pageAddress as nat], committedSinceRead := false);
      var block := Block(flash, c.pageAddress as nat);
      && StreamCore(flash, block, usb, c', h', committed)
      && PendingBytes(block, usb, c') == PendingBytes(buf, usb, c) + block
      && (!c.partialBuf ==> BetweenPasses(flash, block, usb, c', h', committed))
  {
    var c' := c.(dataCount := SPI_BUFFER_SIZE as u16, offset := 0, pageAddress := Advance(c.pageAddress));
    var h' := h.(readAddrs := h.readAddrs + [c.pageAddress as nat], committedSinceRead := false);
    var block := Block(flash, c.pageAddress as nat);
    var tail := PendingBytes(buf, usb, c);
    assert block[0 .. SPI_BUFFER_SIZE] == block;
    assert PendingBytes(block, usb, c') == tail + block;
    FlashStreamSnoc(flash, h.readAddrs, c.pageAddress as nat);
    AppendAssoc(h.attempted, tail, block);
    if h.lossless && h.readAddrs != [] {
      ReadAddressNext(|h.readAddrs| - 1);
    }
  }

  /** Copying a whole packet from spiBuffer at `offset` readies it for its commit. */
  lemma CopyKeepsReady(flash: seq<byte>, buf: seq<byte>, usb: seq<byte>, c: Cursor, h: History, committed: seq<seq<byte>>)
    requires StreamCore(flash, buf, usb, c, h, committed) && !c.partialBuf && c.dataCount as int >= ISO_XFER_LEN
    ensures var packet := buf[c.offset .. c.offset as int + ISO_XFER_LEN];
      PacketReady(flash, buf, packet, c.(dataCount := c.dataCount - ISO_XFER_LEN as u16, offset := c.offset + ISO_XFER_LEN as u16), h, committed)
  {
    var c' := c.(dataCount := c.dataCount - ISO_XFER_LEN as u16, offset := c.offset + ISO_XFER_LEN as u16);
    var packet := buf[c.offset .. c.offset as int + ISO_XFER_LEN];
    var rest := buf[c'.offset .. c'.offset as int + c'.dataCount as int];
    assert PendingBytes(buf, usb, c) == packet + rest;
    assert |h.readAddrs| * SPI_BUFFER_SIZE >= ISO_XFER_LEN;
    AppendAssoc(h.attempted, packet, rest);
  }

  /** Carrying a tail shorter than a packet in the USB buffer moves it from spiBuffer to the tail, in place. */
  lemma StartPartialKeepsValid(flash: seq<byte>, buf: seq<byte>, usb: seq<byte>, c: Cursor, h: History, committed: seq<seq<byte>>)
    requires BetweenPasses(flash, buf, usb, c, h, committed) && 0 < c.dataCount as int < ISO_XFER_LEN
    ensures var usb' := buf[c.offset .. c.offset as int + c.dataCount as int] + usb[c.dataCount..];
      BetweenPasses(flash, buf, usb', c.(partialBuf := true, dataCopyOffset := c.dataCount, dataCount := 0), h, committed)
  {
    var tail := buf[c.offset .. c.offset as int + c.dataCount as int];
    var usb' := tail + usb[c.dataCount..];
    assert usb'[..c.dataCount] == tail;
    assert |h.readAddrs| * SPI_BUFFER_SIZE > 0;
  }

  /** Completing the carried tail from a block buffer readies the packet for its commit. */
  lemma CompletePartialKeepsReady(flash: seq<byte>, buf: seq<byte>, usb: seq<byte>, c: Cursor, h: History, committed: seq<seq<byte>>)
    requires StreamCore(flash, buf, usb, c, h, committed) && c.partialBuf
    requires c.dataCount as int == SPI_BUFFER_SIZE && c.offset == 0
    ensures var used := ISO_XFER_LEN as u16 - c.dataCopyOffset;
      var usb' := usb[..c.dataCopyOffset] + buf[..used];
      PacketReady(flash, buf, usb', c.(partialBuf := false, offset := used, dataCount := c.dataCount - used), h, committed)
  {
    var used := ISO_XFER_LEN as u16 - c.dataCopyOffset;
    var tail := usb[..c.dataCopyOffset];
    var head := buf[..used];
    var rest := buf[used .. SPI_BUFFER_SIZE];
    assert buf[0 .. SPI_BUFFER_SIZE] == head + rest;
    AppendAssoc(tail, head, rest);
    AppendAssoc(h.attempted, tail + head, rest);
    assert |h.readAddrs| * SPI_BUFFER_SIZE > 0;
  }

  /**
   * A commit of the ready packet: on success the packet joins the committed
   * ones and the page address wraps; on failure it is lost. Either way the
   * invariant between passes holds again.
   */
  lemma CommitKeepsValid(flash: seq<byte>, buf: seq<byte>, usb: seq<byte>, c: Cursor, h: History, committed: seq<seq<byte>>, ok: bool)
    requires PacketReady(flash, buf, usb, c, h, committed)
    ensures BetweenPasses(flash, buf, usb, c.(pageAddress := if ok then Wrap(c.pageAddress) else c.pageAddress),
      h.(attempted := h.attempted + usb, lossless := h.lossless && ok, committedSinceRead := h.committedSinceRead || ok),
      if ok then committed + [usb] else committed)
  {
    AppendAssoc(h.attempted, usb, PendingBytes(buf, usb, c));
    FlattenSnoc(committed, usb);
  }

  /** The SDK calls of the start, stop and setup paths, in order. */
  datatype UacAction =
    | SetEpConfig(ep: byte, enable: bool, packetSize: nat)
    | StreamChannelCreate(bufferSize: nat, bufferCount: nat)
    | FlushEp(ep: byte)
    | StreamSetXfer
    | SpiChannelReset
    | StreamChannelDestroy
    | Ep0Ack
    | Ep0Stall

  /** The USB events the audio callback distinguishes; `evdata` of SET_INTERFACE holds the interface and the alternate setting. */
  datatype UacEvent = SetInterface(evdata: u16) | SetConfiguration | BusReset | Disconnect | OtherEvent

  /** SET_INTERFACE with interface 1 (`evdata >> 8`) and alternate setting 1 (`evdata & 0xFF`): the stream is (re)started. */
  predicate StartsStream(ev: UacEvent)
  {
    ev.SetInterface? && ev.evdata / 0x100 == STREAM_INTERFACE && ev.evdata % 0x100 == STREAM_INTERFACE
  }

  /** The events that stop a running stream: every SET_INTERFACE, SET_CONFIGURATION, reset and disconnect. */
  predicate StopsStream(ev: UacEvent)
  {
    !ev.OtherEvent?
  }

  /** CyFxUacApplnStop's calls: the SPI channel reset, the stream channel destroyed, the endpoint flushed and disabled. */
  function StopActions(): seq<UacAction>
  {
    [SpiChannelReset, StreamChannelDestroy, FlushEp(EP_ISO_AUDIO), SetEpConfig(EP_ISO_AUDIO, false, 0)]
  }

  /** CyFxUacApplnStart's calls, up to the first that fails. */
  function StartActions(cfgOk: bool, createOk: bool): seq<UacAction>
  {
    var config := SetEpConfig(EP_ISO_AUDIO, true, ISO_XFER_LEN);
    var create := StreamChannelCreate(ISO_XFER_LEN, STREAM_BUF_COUNT);
    if !cfgOk then [config]
    else if !createOk then [config, create]
    else [config, create, FlushEp(EP_ISO_AUDIO), StreamSetXfer]
  }

  /** The calls of the event callback: a stop when running and the event stops, then a start for SET_INTERFACE(1, 1). */
  function EventActions(active: bool, ev: UacEvent, cfgOk: bool, createOk: bool): seq<UacAction>
  {
    (if active && StopsStream(ev) then StopActions() else [])
    + (if StartsStream(ev) then StartActions(cfgOk, createOk) else [])
  }

  /** A request SET_FEATURE or CLEAR_FEATURE to an interface with wValue 0: FUNCTION_SUSPEND. */
  predicate IsFunctionSuspend(s: Setup)
  {
    RequestType(s.bmRequestType) == STANDARD_RQT && Target(s.bmRequestType) == TARGET_INTF
    && (s.bRequest == SC_SET_FEATURE || s.bRequest == SC_CLEAR_FEATURE) && s.wValue == 0
  }

  /** Whether the stream runs after an event: started by SET_INTERFACE(1, 1) when every start call succeeds, stopped by the other stopping events. */
  function ActiveAfter(active: bool, ev: UacEvent, startOk: bool): (a: bool)
    ensures a <==> (StartsStream(ev) && startOk) || (active && !StopsStream(ev))
    ensures StopsStream(ev) && !StartsStream(ev) ==> !a
  {
    if StartsStream(ev) then startOk else if StopsStream(ev) then false else active
  }

  /** The event callback stops a running stream before it starts one, and touches nothing for other events. */
  lemma EventActionsOrder(active: bool, ev: UacEvent, cfgOk: bool, createOk: bool)
    ensures var acts := EventActions(active, ev, cfgOk, createOk);
      && (active && StartsStream(ev) ==> acts[..4] == StopActions() && acts[4] == SetEpConfig(EP_ISO_AUDIO, true, ISO_XFER_LEN))
      && (!active && StartsStream(ev) ==> acts[0] == SetEpConfig(EP_ISO_AUDIO, true, ISO_XFER_LEN))
      && (!StartsStream(ev) ==> acts == if active && StopsStream(ev) then StopActions() else [])
      && (StreamSetXfer in acts <==> StartsStream(ev) && cfgOk && createOk)
  {
    var acts := EventActions(active, ev, cfgOk, createOk);
    if active && StartsStream(ev) {
      assert acts == StopActions() + StartActions(cfgOk, createOk);
      assert acts[..4] == StopActions();
    }
  }

  /** The setup callback's reply: FUNCTION_SUSPEND is acknowledged while streaming and stalled otherwise; nothing else is answered here. */
  function SetupReply(active: bool, s: Setup): (r: seq<UacAction>)
    ensures r == [Ep0Ack] <==> IsFunctionSuspend(s) && active
    ensures r == [Ep0Stall] <==> IsFunctionSuspend(s) && !active
    ensures r == [] <==> !IsFunctionSuspend(s)
  {
    if IsFunctionSuspend(s) then (if active then [Ep0Ack] else [Ep0Stall]) else []
  }

  class UacDevice {
    /** glIsApplnActive. */
    var active: bool
    /** SDK calls of the callbacks so far. */
    var log: seq<UacAction>
    /** The setup callback is spinning in its class-request loop, which never ends. */
    var setupHung: bool

    /** The flash contents over its 24-bit address space. */
    const flash: seq<byte>
    /** The thread's `spiBuffer[2048]`. */
    const spiBuffer: array<byte>
    /** The read commands sent to the flash, in order. */
    var spiCommands: seq<seq<byte>>
    /** The contents of the USB DMA buffer the thread is filling. */
    var usbBuf: seq<byte>
    /** The buffers committed to the isochronous endpoint, in order. */
    var committed: seq<seq<byte>>

    /** The thread's locals. */
    var pageAddress: u16
    var dataCount: u16
    var offset: u16
    var partialBuf: bool
    var dataCopyOffset: u16
    /** The thread has entered CyFxAppErrorHandler, which sleeps forever. */
    var hung: bool

    /** The thread's history, for the proofs. */
    ghost var history: History

    /** The sizes of the flash and of the two buffers. */
    predicate Sizes()
      reads this
    {
      |flash| == FLASH_SIZE && spiBuffer.Length == SPI_BUFFER_SIZE && |usbBuf| == ISO_XFER_LEN
    }

    /** The thread's locals as one value. */
    function Locals(): Cursor
      reads this
    {
      Cursor(pageAddress, dataCount, offset, partialBuf, dataCopyOffset)
    }

    /** Between passes of the streaming loop; once the thread has hung, only the sizes. */
    ghost predicate Valid()
      reads this, spiBuffer
    {
      && Sizes()
      && (!hung ==> BetweenPasses(flash, spiBuffer[..], usbBuf, Locals(), history, committed))
    }

    /** The zero-initialised statics and the thread's initial locals, over a given flash. */
    constructor (flash: seq<byte>)
      requires |flash| == FLASH_SIZE
      ensures Valid() && history.lossless && !active && !hung && !setupHung
      ensures this.flash == flash && log == [] && spiCommands == [] && committed == [] && history.readAddrs == []
    {
      this.flash := flash;
      spiBuffer := new byte[SPI_BUFFER_SIZE](_ => 0);
      usbBuf := seq(ISO_XFER_LEN, _ => 0);
      active, log, setupHung := false, [], false;
      spiCommands, committed := [], [];
      pageAddress, dataCount, offset, partialBuf, dataCopyOffset, hung := 0, 0, 0, false, 0, false;
      history := History([], [], true, false);
    }

    /**
     * The refill at the head of a pass once spiBuffer is used up: 2048
     * bytes from `pageAddress` into spiBuffer, then offset 0 and the page
     * address 8 further on. A failed transfer enters the error handler,
     * which never returns.
     */
    method Refill(spiFail: nat)
      requires Valid() && !hung && dataCount == 0
      modifies this`dataCount, this`offset, this`pageAddress, this`hung, this`spiCommands, spiBuffer, this`history
      ensures Sizes() && (hung <==> spiFail < READ_PAGES)
      ensures spiCommands == old(spiCommands) + ReadCommands(old(pageAddress) as nat, Min(spiFail, READ_PAGES))
      ensures !hung ==>
        && spiBuffer[..] == Block(flash, old(pageAddress) as nat)
        && Locals() == old(Locals()).(dataCount := SPI_BUFFER_SIZE as u16, offset := 0, pageAddress := Advance(old(pageAddress)))
        && history == old(history).(readAddrs := old(history.readAddrs) + [old(pageAddress) as nat], committedSinceRead := false)
        && StreamCore(flash, spiBuffer[..], usbBuf, Locals(), history, committed)
        && (!partialBuf ==> BetweenPasses(flash, spiBuffer[..], usbBuf, Locals(), history, committed))
    {
      RefillKeepsCore(flash, spiBuffer[..], usbBuf, Locals(), history, committed);
      dataCount := SPI_BUFFER_SIZE as u16;
      var ok := SpiTransfer(pageAddress, dataCount, true, spiFail);
      if !ok {
        hung := true;
        return;
      }
      assert spiBuffer[..] == spiBuffer[..READ_PAGES * SPI_PAGE_SIZE];
      offset := 0;
      history := history.(readAddrs := history.readAddrs + [pageAddress as nat], committedSinceRead := false);
      pageAddress := Advance(pageAddress);
    }

    /** A whole packet from spiBuffer at `offset` into the USB buffer. */
    method CopyPacket()
      requires Sizes() && StreamCore(flash, spiBuffer[..], usbBuf, Locals(), history, committed)
      requires !partialBuf && dataCount as int >= ISO_XFER_LEN
      modifies this`usbBuf, this`dataCount, this`offset
      ensures Sizes() && PacketReady(flash, spiBuffer[..], usbBuf, Locals(), history, committed)
      ensures usbBuf == spiBuffer[old(offset) .. old(offset) as int + ISO_XFER_LEN]
      ensures Locals() == old(Locals()).(dataCount := old(dataCount) - ISO_XFER_LEN as u16, offset := old(offset) + ISO_XFER_LEN as u16)
    {
      CopyKeepsReady(flash, spiBuffer[..], usbBuf, Locals(), history, committed);
      usbBuf := spiBuffer[offset .. offset + ISO_XFER_LEN as u16];
      dataCount := dataCount - ISO_XFER_LEN as u16;
      offset := offset + ISO_XFER_LEN as u16;
    }

    /** A tail shorter than a packet: copied to the start of the USB buffer and carried into the next pass. */
    method StartPartial()
      requires Sizes() && BetweenPasses(flash, spiBuffer[..], usbBuf, Locals(), history, committed)
      requires !partialBuf && 0 < dataCount as int < ISO_XFER_LEN
      modifies this`partialBuf, this`dataCopyOffset, this`dataCount, this`usbBuf
      ensures Sizes() && BetweenPasses(flash, spiBuffer[..], usbBuf, Locals(), history, committed)
      ensures usbBuf == spiBuffer[offset .. offset + old(dataCount)] + old(usbBuf)[old(dataCount)..]
      ensures Locals() == old(Locals()).(partialBuf := true, dataCopyOffset := old(dataCount), dataCount := 0)
    {
      StartPartialKeepsValid(flash, spiBuffer[..], usbBuf, Locals(), history, committed);
      partialBuf := true;
      dataCopyOffset := dataCount;
      dataCount := 0;
      usbBuf := spiBuffer[offset .. offset + dataCopyOffset] + usbBuf[dataCopyOffset..];
    }

    /** The carried tail completed with the first `96 - dataCopyOffset` bytes of a refilled spiBuffer. */
    method CompletePartial()
      requires Sizes() && StreamCore(flash, spiBuffer[..], usbBuf, Locals(), history, committed)
      requires partialBuf && dataCount as int == SPI_BUFFER_SIZE && offset == 0
      modifies this`partialBuf, this`usbBuf, this`offset, this`dataCount
      ensures Sizes() && PacketReady(flash, spiBuffer[..], usbBuf, Locals(), history, committed)
      ensures usbBuf == old(usbBuf)[..dataCopyOffset] + spiBuffer[..ISO_XFER_LEN as u16 - dataCopyOffset]
      ensures Locals() == old(Locals()).(partialBuf := false, offset := ISO_XFER_LEN as u16 - dataCopyOffset,
                                         dataCount := SPI_BUFFER_SIZE as u16 - (ISO_XFER_LEN as u16 - dataCopyOffset))
    {
      CompletePartialKeepsReady(flash, spiBuffer[..], usbBuf, Locals(), history, committed);
      partialBuf := false;
      usbBuf := usbBuf[..dataCopyOffset] + spiBuffer[offset .. offset + ISO_XFER_LEN as u16 - dataCopyOffset];
      offset := ISO_XFER_LEN as u16 - dataCopyOffset;
      dataCount := dataCount - offset;
    }

    /**
     * One pass of the thread's streaming loop: a refill when spiBuffer is
     * used up; then, without a carried tail, a USB buffer (a failure ends
     * the pass), and a whole packet copied or the short tail carried with
     * the pass ended; with a carried tail, the tail completed; then the
     * commit. While no commit has failed, what reaches the host in the first
     * cycle is the flash from address 0 onwards, in whole packets.
     */
    method StreamPass(spiFail: nat, getOk: bool, commitOk: bool)
      requires Valid() && !hung && active
      modifies this`usbBuf, this`dataCount, this`offset, this`partialBuf, this`dataCopyOffset, this`pageAddress
      modifies this`hung, this`spiCommands, this`committed, this`history, spiBuffer
      ensures Valid()
      ensures hung <==> old(dataCount) == 0 && spiFail < READ_PAGES
      ensures committed == old(committed) || (commitOk && committed == old(committed) + [usbBuf])
      ensures !commitOk ==> committed == old(committed)
      ensures !hung && history.lossless ==> Flatten(committed) <= FlashStream(flash, history.readAddrs)
      ensures !hung && history.lossless && |history.readAddrs| <= 122 ==> Flatten(committed) == flash[..|Flatten(committed)|]
    {
      if dataCount == 0 {
        Refill(spiFail);
        if hung {
          return;
        }
      }
      if !partialBuf {
        if dataCount != 0 && !getOk {
          PrefixOfFlash();
          return;
        }
        if dataCount / ISO_XFER_LEN as u16 != 0 {
          CopyPacket();
        } else {
          if dataCount != 0 {
            StartPartial();
          }
          PrefixOfFlash();
          return;
        }
      } else {
        CompletePartial();
      }
      Commit(commitOk);
      PrefixOfFlash();
    }

    /**
     * CyU3PDmaChannelCommitBuffer of the 96-byte USB buffer: on success it
     * joins the committed packets and the page address wraps to 0 from
     * 0x3CD; on failure the packet is lost and the address is kept.
     */
    method Commit(commitOk: bool)
      requires Sizes() && !hung && PacketReady(flash, spiBuffer[..], usbBuf, Locals(), history, committed)
      modifies this`committed, this`pageAddress, this`history
      ensures Valid() && !hung
      ensures committed == if commitOk then old(committed) + [usbBuf] else old(committed)
      ensures pageAddress == if commitOk then Wrap(old(pageAddress)) else old(pageAddress)
    {
      CommitKeepsValid(flash, spiBuffer[..], usbBuf, Locals(), history, committed, commitOk);
      history := history.(attempted := history.attempted + usbBuf, lossless := history.lossless && commitOk);
      if !commitOk {
        return;
      }
      committed := committed + [usbBuf];
      if pageAddress as int >= AUDIO_SAMPLE_SIZE_IN_PAGES {
        pageAddress := 0;
      }
      history := history.(committedSinceRead := true);
    }

    /**
     * While no commit has failed, the committed packets are the stream read
     * so far, in order and without drop or repeat, up to what is still
     * pending; within the first cycle that is the flash from address 0.
     */
    lemma PrefixOfFlash()
      requires Valid()
      ensures !hung && history.lossless ==> Flatten(committed) <= FlashStream(flash, history.readAddrs)
      ensures !hung && history.lossless && |history.readAddrs| <= 122 ==> Flatten(committed) == flash[..|Flatten(committed)|]
    {
      if !hung && history.lossless {
        assert Flatten(committed) == history.attempted;
      }
      if !hung && history.lossless && |history.readAddrs| <= 122 {
        CommittedIsFlashPrefix(flash, committed, history.attempted,
          PendingBytes(spiBuffer[..], usbBuf, Locals()), history.readAddrs);
      }
    }

    /**
     * CyFxUacApplnStart: the endpoint configured for 96-byte packets, the
     * 16-buffer stream channel created, the endpoint flushed and the
     * transfer set up, stopping at the first call that fails; only when all
     * succeed is the stream active.
     */
    method Start(cfgOk: bool, createOk: bool, xferOk: bool)
      modifies this`active, this`log
      ensures log == old(log) + StartActions(cfgOk, createOk)
      ensures active == ((cfgOk && createOk && xferOk) || old(active))
    {
      log := log + [SetEpConfig(EP_ISO_AUDIO, true, ISO_XFER_LEN)];
      if !cfgOk {
        return;
      }
      log := log + [StreamChannelCreate(ISO_XFER_LEN, STREAM_BUF_COUNT)];
      if !createOk {
        return;
      }
      log := log + [FlushEp(EP_ISO_AUDIO)];
      log := log + [StreamSetXfer];
      if !xferOk {
        return;
      }
      active := true;
    }

    /** CyFxUacApplnStop: the stream marked inactive first, then the channels reset and destroyed and the endpoint flushed and disabled. */
    method Stop()
      modifies this`active, this`log
      ensures !active && log == old(log) + StopActions()
    {
      active := false;
      log := log + [SpiChannelReset];
      log := log + [StreamChannelDestroy];
      log := log + [FlushEp(EP_ISO_AUDIO)];
      log := log + [SetEpConfig(EP_ISO_AUDIO, false, 0)];
    }

    /**
     * CyFxUacApplnUsbEventCbk: SET_INTERFACE for interface 1, alternate
     * setting 1 stops a running stream and starts it again; any other
     * SET_INTERFACE falls through to SET_CONFIGURATION, reset and
     * disconnect, which stop a running stream. The thread's locals are left
     * as they are. It runs in the USB driver's context, which a class
     * request has left spinning for good once `setupHung` holds.
     */
    method UsbEventCallback(ev: UacEvent, cfgOk: bool, createOk: bool, xferOk: bool)
      requires !setupHung
      modifies this`active, this`log
      ensures log == old(log) + EventActions(old(active), ev, cfgOk, createOk)
      ensures active == ActiveAfter(old(active), ev, cfgOk && createOk && xferOk)
    {
      if StartsStream(ev) {
        if active {
          Stop();
        }
        Start(cfgOk, createOk, xferOk);
      } else if StopsStream(ev) {
        if active {
          Stop();
        }
      }
    }

    /**
     * CyFxUacApplnUSBSetupCB: FUNCTION_SUSPEND is answered and handled; a
     * class request never returns, as its busy loop does not end; every
     * other request is left unhandled. No callback runs after a hang.
     */
    method SetupCallback(setupdat0: u32, setupdat1: u32) returns (handled: bool)
      requires !setupHung
      modifies this`log, this`setupHung
      ensures var s := Decode(setupdat0, setupdat1);
        && (handled <==> IsFunctionSuspend(s))
        && log == old(log) + SetupReply(active, s)
        && (setupHung <==> RequestType(s.bmRequestType) == CLASS_RQT)
    {
      var s := Decode(setupdat0, setupdat1);
      var bType := RequestType(s.bmRequestType);
      handled := false;
      if bType == STANDARD_RQT {
        if Target(s.bmRequestType) == TARGET_INTF && (s.bRequest == SC_SET_FEATURE || s.bRequest == SC_CLEAR_FEATURE)
           && s.wValue == 0 {
          if active {
            log := log + [Ep0Ack];
          } else {
            log := log + [Ep0Stall];
          }
          handled := true;
        }
      }
      if bType == CLASS_RQT {
        setupHung := true;
      }
    }

    /**
     * CyFxUacSpiTransfer for a read into spiBuffer: no page for a byte count
     * of 0, otherwise one page after another from `pageAddress`, each a read
     * command then 256 bytes from the flash into the next 256 bytes of the
     * buffer. `failPage` is the first page whose status wait, command or DMA
     * fails; the transfer stops there and reports failure.
     */
    method SpiTransfer(pageAddressArg: u16, byteCount: u16, isRead: bool, failPage: nat) returns (ok: bool)
      requires Sizes() && PageCount(byteCount) * SPI_PAGE_SIZE <= spiBuffer.Length
      modifies spiBuffer, this`spiCommands
      ensures ok <==> byteCount == 0 || !isRead || failPage >= PageCount(byteCount)
      ensures var done := if !isRead then 0 else if failPage < PageCount(byteCount) then failPage else PageCount(byteCount);
        && spiCommands == old(spiCommands) + ReadCommands(pageAddressArg, done)
        && spiBuffer[..done * SPI_PAGE_SIZE] == PagesRead(flash, pageAddressArg, done)
        && spiBuffer[done * SPI_PAGE_SIZE ..] == old(spiBuffer[done * SPI_PAGE_SIZE ..])
    {
      if byteCount == 0 {
        return true;
      }
      var pageCount := PageCount(byteCount);
      var byteAddress := pageAddressArg as int * SPI_PAGE_SIZE;
      var bufOffset := 0;
      var n := 0;
      ghost var done := 0;
      while n < pageCount
        invariant 0 <= n <= pageCount && done == (if isRead then n else 0)
        invariant byteAddress == (pageAddressArg + n) * SPI_PAGE_SIZE && bufOffset == n * SPI_PAGE_SIZE
        invariant isRead ==> n <= failPage
        invariant spiCommands == old(spiCommands) + ReadCommands(pageAddressArg, done)
        invariant spiBuffer[..done * SPI_PAGE_SIZE] == PagesRead(flash, pageAddressArg, done)
        invariant spiBuffer[done * SPI_PAGE_SIZE ..] == old(spiBuffer[done * SPI_PAGE_SIZE ..])
      {
        if isRead {
          if n == failPage {
            return false;
          }
          ReadPage(pageAddressArg, n);
          done := done + 1;
        }
        byteAddress := byteAddress + SPI_PAGE_SIZE;
        bufOffset := bufOffset + SPI_PAGE_SIZE;
        n := n + 1;
      }
      ok := true;
    }

    /** One page of a read transfer: the command for page `pageAddress + n`, then its bytes into spiBuffer at n * 256. */
    method ReadPage(pageAddressArg: nat, n: nat)
      requires Sizes() && (n + 1) * SPI_PAGE_SIZE <= spiBuffer.Length
      requires spiBuffer[..n * SPI_PAGE_SIZE] == PagesRead(flash, pageAddressArg, n)
      modifies spiBuffer, this`spiCommands
      ensures spiCommands == old(spiCommands) + [ReadCommand((pageAddressArg + n) * SPI_PAGE_SIZE)]
      ensures spiBuffer[..(n + 1) * SPI_PAGE_SIZE] == PagesRead(flash, pageAddressArg, n + 1)
      ensures spiBuffer[(n + 1) * SPI_PAGE_SIZE ..] == old(spiBuffer[(n + 1) * SPI_PAGE_SIZE ..])
    {
      var byteAddress := (pageAddressArg + n) * SPI_PAGE_SIZE;
      spiCommands := spiCommands + [ReadCommand(byteAddress)];
      var page := FlashPage(flash, byteAddress);
      var base := n * SPI_PAGE_SIZE;
      CopyPage(spiBuffer, base, page);
      assert spiBuffer[..base + SPI_PAGE_SIZE] == spiBuffer[..base] + spiBuffer[base .. base + SPI_PAGE_SIZE];
    }

    /** The DMA of one page: its bytes into the buffer from `base`, the rest of the buffer untouched. */
    static method CopyPage(buf: array<byte>, base: nat, page: seq<byte>)
      requires |page| == SPI_PAGE_SIZE && base + SPI_PAGE_SIZE <= buf.Length
      modifies buf
      ensures buf[..base] == old(buf[..base])
      ensures buf[base .. base + SPI_PAGE_SIZE] == page
      ensures buf[base + SPI_PAGE_SIZE ..] == old(buf[base + SPI_PAGE_SIZE ..])
    {
      forall k | 0 <= k < SPI_PAGE_SIZE {
        buf[base + k] := page[k];
      }
    }
  }
}
