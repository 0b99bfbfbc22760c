/**
 * The USB Mass Storage Bulk-Only Transport device of usbMSC/usbMSC.c: a RAM
 * disk of 256 KiB answering SCSI commands carried in 31-byte Command Block
 * Wrappers (CBW) and acknowledged with 13-byte Command Status Wrappers (CSW),
 * as in sections 5.1, 5.2 and 6 of the USB Mass Storage Class Bulk-Only
 * Transport 1.0.
 *
 * The pure half (CBW validation, the direction check, the layouts of the
 * replies, the outcome of each SCSI command) is a set of functions; the file
 * statics, the 18-byte response buffer, the CSW buffer and the storage are
 * fields of `MscDevice`, whose methods are the callbacks and the steps of
 * mscThread. Bulk transfers the SDK completes are parameters (whether the
 * send succeeded, how many sector transfers succeed) and are recorded in a
 * ghost log of `Action`s.
 */
module MscBot {
  import opened Bytes
  import opened UsbSetup
  import opened Wrappers

  const CARD_CAPACITY: nat := 256 * 1024
  const CBW_MAX_COUNT: nat := 31
  const CSW_MAX_COUNT: nat := 13
  const RESPONSE_MAX_COUNT: nat := 18
  const INQUIRY_DATA_COUNT: nat := 36

  const EP_BULK_OUT: u16 := 0x01
  const EP_BULK_IN: u16 := 0x81
  const MSC_INTF: u16 := 0
  const GET_MAX_LUN_REQ: byte := 0xFE
  const BOT_RESET_REQ: byte := 0xFF

  // SCSI operation codes (SPC-2, SBC-2 and the UFI READ FORMAT CAPACITIES)
  const TEST_UNIT_READY: byte := 0x00
  const REQUEST_SENSE: byte := 0x03
  const FORMAT_UNIT: byte := 0x04
  const INQUIRY: byte := 0x12
  const MODE_SENSE_6: byte := 0x1A
  const START_STOP_UNIT: byte := 0x1B
  const PREVENT_ALLOW_MEDIUM: byte := 0x1E
  const READ_FORMAT_CAPACITY: byte := 0x23
  const READ_CAPACITY: byte := 0x25
  const READ_10: byte := 0x28
  const WRITE_10: byte := 0x2A
  const VERIFY_10: byte := 0x2F

  /** The opcodes that move data to the host: host-to-device direction is an error for them. */
  const DATA_IN_OPCODES: set<byte> :=
    {INQUIRY, READ_CAPACITY, REQUEST_SENSE, FORMAT_UNIT, START_STOP_UNIT, MODE_SENSE_6,
     PREVENT_ALLOW_MEDIUM, READ_10, READ_FORMAT_CAPACITY, VERIFY_10, TEST_UNIT_READY}

  /** Every opcode the parser has a case for. */
  const SUPPORTED_OPCODES: set<byte> := DATA_IN_OPCODES + {WRITE_10}

  /** A row of the request-sense table. */
  type SenseIndex = i: int | 0 <= i < 13

  const SENSE_OK: SenseIndex := 0
  const SENSE_INVALID_FIELD_IN_CBW: SenseIndex := 2
  const SENSE_INVALID_OP_CODE: SenseIndex := 7
  const SENSE_DEVICE_RESET: SenseIndex := 0x0C

  /** Sense key, additional sense code and qualifier of each sense index. */
  const ReqSenseCode: seq<(byte, byte, byte)> := [
    (0x00, 0x00, 0x00), (0x0b, 0x08, 0x03), (0x05, 0x24, 0x00), (0x02, 0x3a, 0x00),
    (0x03, 0x03, 0x00), (0x03, 0x11, 0x00), (0x03, 0x12, 0x00), (0x05, 0x20, 0x00),
    (0x05, 0x21, 0x00), (0x05, 0x26, 0x00), (0x05, 0x53, 0x02), (0x06, 0x28, 0x00),
    (0x06, 0x29, 0x00)]

  /** 'USBC' and 'USBS'. */
  const CBW_SIGNATURE: seq<byte> := ['U' as int, 'S' as int, 'B' as int, 'C' as int]
  const CSW_SIGNATURE: seq<byte> := ['U' as int, 'S' as int, 'B' as int, 'S' as int]

  /** The two DMA channels: glChHandleMscIn carries EP 0x01 to the CPU, glChHandleMscOut the CPU to EP 0x81. */
  datatype Channel = MscIn | MscOut

  /** SDK calls, and the bulk-IN transfers the host receives. */
  datatype Action =
    | ToHost(data: seq<byte>)
    | InquiryToHost(table: seq<byte>, length: nat)  // a send of `length` bytes from the inquiry table, whose bytes it covers are `table`
    | Stall(ep: u16) | ClearStall(ep: u16) | FlushEp(ep: u16) | EpNak(ep: u16, nak: bool)
    | ChannelReset(ch: Channel) | ChannelAbort(ch: Channel) | ChannelDestroy(ch: Channel)
    | ChannelCreate(ch: Channel, size: nat)
    | ConfigureEp(ep: u16, packetSize: Option<nat>)
    | Ep0Ack | Ep0Stall | Ep0Send(data: seq<byte>)
    | RecvQueued
    | LpmEnable | LpmDisable | LinkToU0

  /** CyFxMscCswReturnStatus_t. */
  datatype Status = Passed | Failed | PhaseError | MscReset

  /** The enumeration's value, which is what `status & 3` puts in the CSW. */
  function StatusCode(s: Status): (c: byte)
    ensures c < 4
    ensures c == 0 <==> s == Passed
  {
    match s
    case Passed => 0
    case Failed => 1
    case PhaseError => 2
    case MscReset => 3
  }

  // ---------------------------------------------------------------------------
  // Command block wrapper

  /**
   * CyFxMscCheckScsiCmd: a CBW is accepted when it starts with 'USBC' and
   * exactly 31 bytes arrived; anything else is a phase error.
   */
  function CheckScsiCmd(buffer: seq<byte>, count: nat): (r: Status)
    requires |buffer| >= 4
    ensures r == Passed || r == PhaseError
    ensures r == Passed <==> buffer[..4] == CBW_SIGNATURE && count == CBW_MAX_COUNT
  {
    if buffer[0] != 'U' as int || buffer[1] != 'S' as int || buffer[2] != 'B' as int || buffer[3] != 'C' as int then
      PhaseError
    else if count != CBW_MAX_COUNT then PhaseError
    else Passed
  }

  /** dCBWDataTransferLength, bytes 8..11 little-endian. */
  function DataTxLength(cbw: seq<byte>): u32
    requires |cbw| == CBW_MAX_COUNT
  {
    FromLE32(cbw[8..12])
  }

  /** `(bmCBWFlags & 0x80) >> 7`: 1 for device-to-host. */
  function Direction(cbw: seq<byte>): (d: byte)
    requires |cbw| == CBW_MAX_COUNT
    ensures d == 0 || d == 1
  {
    cbw[12] / 0x80
  }

  /** The first byte of the command block. */
  function Opcode(cbw: seq<byte>): byte
    requires |cbw| == CBW_MAX_COUNT
  {
    cbw[15]
  }

  /** The logical block address of READ(10)/WRITE(10), command bytes 2..5 big-endian. */
  function Lba(cbw: seq<byte>): u32
    requires |cbw| == CBW_MAX_COUNT
  {
    FromBE32(cbw[17..21])
  }

  /** The transfer length in sectors of READ(10)/WRITE(10), command bytes 7..8 big-endian. */
  function SectorCount(cbw: seq<byte>): u16
    requires |cbw| == CBW_MAX_COUNT
  {
    Pack16(cbw[22], cbw[23])
  }

  /**
   * INQUIRY's allocation length as the parser computes it,
   * `(uint16_t)(cbw[18] >> 8) | cbw[19]`: shifting a byte right by 8 leaves 0,
   * so only the low byte of the field counts.
   */
  function InquiryAllocation(cbw: seq<byte>): (n: u16)
    requires |cbw| == CBW_MAX_COUNT
    ensures n == cbw[19]
  {
    var hi := cbw[18] / 0x100;
    assert hi == 0;
    hi + cbw[19]
  }

  /** The allocation length of section 6.4.1 of SPC-2 (bytes 3..4 big-endian) differs whenever byte 3 is not 0. */
  lemma InquiryAllocationIgnoresHighByte(cbw: seq<byte>)
    requires |cbw| == CBW_MAX_COUNT
    ensures InquiryAllocation(cbw) == Pack16(cbw[18], cbw[19]) <==> cbw[18] == 0
  {
  }

  /** A CBW's fields (section 5.1 of the Bulk-Only Transport). */
  datatype Cbw = Cbw(tag: u32, dataTransferLength: u32, flags: byte, lun: byte, cbLength: byte, cb: seq<byte>)

  /** The 31 bytes a host sends for a CBW with a 16-byte command block. */
  function EncodeCbw(c: Cbw): (b: seq<byte>)
    requires |c.cb| == 16
    ensures |b| == CBW_MAX_COUNT
    ensures CheckScsiCmd(b, CBW_MAX_COUNT) == Passed
    ensures b[4..8] == LE32(c.tag) && DataTxLength(b) == c.dataTransferLength
    ensures Direction(b) == c.flags / 0x80 && Opcode(b) == c.cb[0]
    ensures Lba(b) == FromBE32(c.cb[2..6]) && SectorCount(b) == Pack16(c.cb[7], c.cb[8])
  {
    var b := CBW_SIGNATURE + LE32(c.tag) + LE32(c.dataTransferLength) + [c.flags, c.lun, c.cbLength] + c.cb;
    assert b[..4] == CBW_SIGNATURE;
    assert b[8..12] == LE32(c.dataTransferLength);
    assert b[17..21] == c.cb[2..6];
    b
  }

  /**
   * CyFxCheckCmdDirection: host-to-device with a data-in opcode, or
   * device-to-host with WRITE(10), fails; every other pair passes.
   */
  function CheckCmdDirection(scsiCmd: byte, cmdDirection: byte): (r: Status)
    ensures r == Passed || r == Failed
    ensures r == Failed <==>
      (cmdDirection == 0 && scsiCmd in DATA_IN_OPCODES) || (cmdDirection != 0 && scsiCmd == WRITE_10)
  {
    if cmdDirection == 0 then
      if scsiCmd == INQUIRY || scsiCmd == READ_CAPACITY || scsiCmd == REQUEST_SENSE
         || scsiCmd == FORMAT_UNIT || scsiCmd == START_STOP_UNIT || scsiCmd == MODE_SENSE_6
         || scsiCmd == PREVENT_ALLOW_MEDIUM || scsiCmd == READ_10 || scsiCmd == READ_FORMAT_CAPACITY
         || scsiCmd == VERIFY_10 || scsiCmd == TEST_UNIT_READY
      then Failed
      else Passed
    else if scsiCmd == WRITE_10 then Failed
    else Passed
  }

  /** The direction is checked only when data is to move. */
  predicate DirectionPasses(cbw: seq<byte>)
    requires |cbw| == CBW_MAX_COUNT
  {
    DataTxLength(cbw) == 0 || CheckCmdDirection(Opcode(cbw), Direction(cbw)) == Passed
  }

  // ---------------------------------------------------------------------------
  // Disk geometry

  /** Bulk packet size, DMA buffer size and sector size all follow the link speed. */
  function PacketSize(speed: Speed): Option<nat>
  {
    match speed
    case FullSpeed => Some(64)
    case HighSpeed => Some(512)
    case SuperSpeed => Some(1024)
    case NotConnected => None
  }

  datatype Disk = Disk(sectorSize: nat, maxSectors: nat)

  /** The RAM disk's geometry after SET_CONFIGURATION: one sector per bulk packet, as many as fill the store. */
  function Geometry(speed: Speed): (r: Option<Disk>)
    ensures r.None? <==> speed == NotConnected
    ensures r.Some? ==> Some(r.value.sectorSize) == PacketSize(speed)
  {
    match PacketSize(speed)
    case Some(size) => Some(Disk(size, CARD_CAPACITY / size))
    case None => None
  }

  /** Every geometry's sectors tile the 256 KiB store exactly. */
  lemma GeometryTilesStore(speed: Speed)
    requires speed != NotConnected
    ensures Geometry(speed).value.sectorSize in {64, 512, 1024}
    ensures Geometry(speed).value.sectorSize * Geometry(speed).value.maxSectors == CARD_CAPACITY
  {
  }

  /** The geometries the device can have: none before the first configuration, then one per speed. */
  predicate DiskShaped(sectorSize: nat, maxSectors: nat)
  {
    || (sectorSize == 0 && maxSectors == 0)
    || (sectorSize == 64 && maxSectors == 4096)
    || (sectorSize == 512 && maxSectors == 512)
    || (sectorSize == 1024 && maxSectors == 256)
  }

  lemma GeometryShaped(speed: Speed)
    requires speed != NotConnected
    ensures DiskShaped(Geometry(speed).value.sectorSize, Geometry(speed).value.maxSectors)
  {
  }

  /** The range check of READ(10)/WRITE(10) as written: `lba > max || lba + n > max + 1` rejects. */
  predicate SectorRangeAsWritten(lba: nat, count: nat, maxSectors: nat)
  {
    !(lba > maxSectors || lba + count > maxSectors + 1)
  }

  /** The range check the store needs: sectors lba..lba+count-1 all exist. */
  predicate SectorRangeOk(lba: nat, count: nat, maxSectors: nat)
  {
    lba + count <= maxSectors
  }

  /** The check as written admits exactly one more case: a non-empty range ending one sector past the last. */
  lemma SectorRangeAsWrittenAdmits(lba: nat, count: nat, maxSectors: nat)
    ensures SectorRangeAsWritten(lba, count, maxSectors)
      <==> SectorRangeOk(lba, count, maxSectors) || (count > 0 && lba + count == maxSectors + 1)
  {
  }

  /** At high speed, READ(10) of one sector at LBA 512 passes the check as written and ends past the store. */
  lemma AsWrittenReadsPastStore()
    ensures Geometry(HighSpeed) == Some(Disk(512, 512))
    ensures SectorRangeAsWritten(512, 1, 512) && (512 + 1) * 512 > CARD_CAPACITY
    ensures !SectorRangeOk(512, 1, 512)
  {
  }

  lemma MulMono(a: nat, b: nat, c: nat)
    requires a <= b
    ensures a * c <= b * c
  {
  }

  /** Every range the corrected check admits lies inside the store. */
  lemma {:induction false} SectorRangeInStore(lba: nat, count: nat, d: Disk)
    requires DiskShaped(d.sectorSize, d.maxSectors) && SectorRangeOk(lba, count, d.maxSectors)
    ensures (lba + count) * d.sectorSize <= CARD_CAPACITY
  {
    MulMono(lba + count, d.maxSectors, d.sectorSize);
  }

  /** The arithmetic a transfer of m of the count sectors at lba relies on. */
  lemma {:induction false} SectorArithmetic(lba: nat, count: nat, m: nat, size: nat, maxSectors: nat, len: nat)
    requires DiskShaped(size, maxSectors) && SectorRangeOk(lba, count, maxSectors)
    requires count * size == len && m <= count
    ensures m * size <= len && (lba + m) * size <= (lba + count) * size <= CARD_CAPACITY
  {
    SectorRangeInStore(lba, count, Disk(size, maxSectors));
    MulMono(m, count, size);
    MulMono(lba + m, lba + count, size);
  }

  /** The arithmetic of one more sector of a request inside the store: the next sector lies in the store and within the length. */
  lemma {:induction false} SectorStep(lba: nat, count: nat, m: nat, size: nat, len: nat)
    requires (lba + count) * size <= CARD_CAPACITY && count * size == len && m < count
    ensures (lba + m) * size + size == (lba + m + 1) * size <= CARD_CAPACITY
    ensures m * size + size == (m + 1) * size <= len
  {
    MulMono(m + 1, count, size);
    MulMono(lba + m + 1, lba + count, size);
  }

  // ---------------------------------------------------------------------------
  // Reply layouts

  /** READ CAPACITY(10) data: the sector count big-endian, then the sector size as a 4-byte big-endian field. */
  function CapacityData(maxSectors: u32, sectorSize: u16): (r: seq<byte>)
    ensures |r| == 8
  {
    [ByteOf(maxSectors, 3), ByteOf(maxSectors, 2), ByteOf(maxSectors, 1), ByteOf(maxSectors, 0),
     0x00, 0x00, HiByte(sectorSize), LoByte(sectorSize)]
  }

  /** The host reads back the sector count and the sector size from the READ CAPACITY data. */
  lemma CapacityDataFields(maxSectors: u32, sectorSize: u16)
    ensures var r := CapacityData(maxSectors, sectorSize);
      r[..4] == BE32(maxSectors) && FromBE32(r[..4]) == maxSectors
      && r[4] == 0 && r[5] == 0 && Pack16(r[6], r[7]) == sectorSize
  {
    var r := CapacityData(maxSectors, sectorSize);
    assert r[..4] == BE32(maxSectors);
    Split16(sectorSize);
  }

  /**
   * The first field is the sector count, where section 5.10.2 of SBC-2 asks
   * for the address of the last sector: a host that reads it as such sizes
   * the disk one sector larger than the store.
   */
  lemma CapacityOverstates(sectorSize: u16, maxSectors: u32)
    requires DiskShaped(sectorSize as nat, maxSectors as nat) && sectorSize != 0
    ensures var r := CapacityData(maxSectors, sectorSize);
      (FromBE32(r[..4]) + 1) * Pack16(r[6], r[7]) == CARD_CAPACITY + sectorSize as nat
  {
    CapacityDataFields(maxSectors, sectorSize);
  }

  /** READ FORMAT CAPACITIES data: a list header of length 8, then one descriptor flagged 0x02. */
  function FormatCapacityData(maxSectors: u32, sectorSize: u16): (r: seq<byte>)
    ensures |r| == 12
  {
    [0x00, 0x00, 0x00, 0x08,
     ByteOf(maxSectors, 3), ByteOf(maxSectors, 2), ByteOf(maxSectors, 1), ByteOf(maxSectors, 0),
     0x02, 0x00, HiByte(sectorSize), LoByte(sectorSize)]
  }

  /** The host reads back the header, the sector count, the formatted flag and the sector size. */
  lemma FormatCapacityDataFields(maxSectors: u32, sectorSize: u16)
    ensures var r := FormatCapacityData(maxSectors, sectorSize);
      r[..4] == [0, 0, 0, 8] && r[4..8] == BE32(maxSectors) && FromBE32(r[4..8]) == maxSectors
      && r[8] == 0x02 && r[9] == 0 && Pack16(r[10], r[11]) == sectorSize
  {
    var r := FormatCapacityData(maxSectors, sectorSize);
    assert r[4..8] == BE32(maxSectors);
    Split16(sectorSize);
  }

  /** The fixed-format sense data of section 7.23.2 of SPC-2 for a row of the sense table. */
  function SenseData(i: SenseIndex): (r: seq<byte>)
    ensures |r| == RESPONSE_MAX_COUNT && r[0] == 0x70 && r[7] == 0x0A
    ensures r[2] == ReqSenseCode[i].0 && r[12] == ReqSenseCode[i].1 && r[13] == ReqSenseCode[i].2
    ensures forall k | 0 <= k < RESPONSE_MAX_COUNT && k !in {0, 2, 7, 12, 13} :: r[k] == 0
  {
    var (sk, asc, ascq) := ReqSenseCode[i];
    [0x70, 0x00, sk, 0, 0, 0, 0, 0x0A, 0, 0, 0, 0, asc, ascq, 0, 0, 0, 0]
  }

  /** The 4-byte mode parameter header sent for MODE SENSE(6), FORMAT UNIT and START STOP UNIT. */
  const ModeSenseData: seq<byte> := [0x03, 0x00, 0x00, 0x00]

  /**
   * CyFxMscScsiInquiryData, the 36-byte standard inquiry data: a removable
   * direct-access device, response format 2, vendor "Cypress", product
   * "FX3 MSC DEMO" and revision "1", each field NUL-padded.
   */
  const InquiryData: seq<byte> := [
    0x00, 0x80, 0x00, 0x02, 0x1F, 0x00, 0x00, 0x00,
    'C' as int, 'y' as int, 'p' as int, 'r' as int, 'e' as int, 's' as int, 's' as int, 0x00,
    'F' as int, 'X' as int, '3' as int, 0x00, 'M' as int, 'S' as int, 'C' as int, 0x00,
    'D' as int, 'E' as int, 'M' as int, 'O' as int, 0x00,
    0x00, 0x00, 0x00, 0x00, 0x00, 0x00, '1' as int]

  /** The table's additional-length byte counts the bytes after byte 4, as section 7.3.2 of SPC-2 defines it. */
  lemma InquiryDataShape()
    ensures |InquiryData| == 36
    ensures InquiryData[4] as nat == |InquiryData| - 5
    ensures InquiryData[1] == 0x80
  {
  }

  /** A CSW: signature, the CBW's tag, the residue little-endian and the status (section 5.2). */
  function CswBytes(tag: seq<byte>, residue: u32, status: Status): (r: seq<byte>)
    requires |tag| == 4
    ensures |r| == CSW_MAX_COUNT
  {
    CSW_SIGNATURE + tag
    + [ByteOf(residue, 0), ByteOf(residue, 1), ByteOf(residue, 2), ByteOf(residue, 3), StatusCode(status)]
  }

  /** The host reads back the signature, the tag, the residue and the status from a CSW. */
  lemma CswBytesFields(tag: seq<byte>, residue: u32, status: Status)
    requires |tag| == 4
    ensures var r := CswBytes(tag, residue, status);
      r[..4] == CSW_SIGNATURE && r[4..8] == tag && r[8..12] == LE32(residue)
      && FromLE32(r[8..12]) == residue && r[12] == StatusCode(status)
  {
    var r := CswBytes(tag, residue, status);
    assert r[..4] == CSW_SIGNATURE && r[4..8] == tag && r[8..12] == LE32(residue);
  }

  // ---------------------------------------------------------------------------
  // The RAM disk

  /** Sector n of the store. */
  function Sector(mem: seq<byte>, n: nat, size: nat): seq<byte>
    requires n * size + size <= |mem|
  {
    mem[n * size .. n * size + size]
  }

  /** The transfers of a READ(10) that moved k sectors from lba on. */
  function ReadSectors(mem: seq<byte>, lba: nat, size: nat, k: nat): (r: seq<Action>)
    requires (lba + k) * size <= |mem|
    ensures |r| == k
  {
    if k == 0 then []
    else
      assert (lba + k - 1) * size + size == (lba + k) * size;
      ReadSectors(mem, lba, size, k - 1) + [ToHost(Sector(mem, lba + k - 1, size))]
  }

  /** The first j transfers of a longer READ(10) are those of a READ(10) of j sectors. */
  lemma {:induction false} ReadSectorsPrefix(mem: seq<byte>, lba: nat, size: nat, k: nat, j: nat)
    requires (lba + k) * size <= |mem| && j <= k
    ensures (lba + j) * size <= |mem|
    ensures ReadSectors(mem, lba, size, k)[..j] == ReadSectors(mem, lba, size, j)
  {
    MulMono(lba + j, lba + k, size);
    if j < k {
      MulMono(lba + k - 1, lba + k, size);
      ReadSectorsPrefix(mem, lba, size, k - 1, j);
      assert ReadSectors(mem, lba, size, k)[..j] == ReadSectors(mem, lba, size, k - 1)[..j];
    }
  }

  /** Transfer i of a READ(10) carries sector lba + i: the sectors go out in order. */
  lemma {:induction false} ReadSectorsInOrder(mem: seq<byte>, lba: nat, size: nat, k: nat, i: nat)
    requires (lba + k) * size <= |mem| && i < k
    ensures (lba + i) * size + size <= |mem|
    ensures ReadSectors(mem, lba, size, k)[i] == ToHost(Sector(mem, lba + i, size))
  {
    MulMono(lba + i + 1, lba + k, size);
    if i < k - 1 {
      assert (lba + k - 1) * size + size == (lba + k) * size;
      ReadSectorsInOrder(mem, lba, size, k - 1, i);
    }
  }

  /** The store after a WRITE(10) that received k sectors at lba from `data`. */
  function WriteSectors(mem: seq<byte>, lba: nat, size: nat, data: seq<byte>, k: nat): (r: seq<byte>)
    requires (lba + k) * size <= |mem| && k * size <= |data|
    ensures |r| == |mem|
  {
    assert lba * size <= (lba + k) * size;
    mem[..lba * size] + data[..k * size] + mem[(lba + k) * size..]
  }

  /** Reading back what WRITE(10) stored gives the host's data, sector by sector. */
  lemma {:induction false} ReadAfterWrite(mem: seq<byte>, lba: nat, size: nat, data: seq<byte>, k: nat, i: nat)
    requires (lba + k) * size <= |mem| && k * size <= |data| && i < k
    ensures i * size + size <= |data|
    ensures ReadSectors(WriteSectors(mem, lba, size, data, k), lba, size, k)[i]
         == ToHost(data[i * size .. i * size + size])
  {
    var w := WriteSectors(mem, lba, size, data, k);
    ReadSectorsInOrder(w, lba, size, k, i);
    MulMono(i + 1, k, size);
    assert (lba + i) * size == lba * size + i * size;
    assert (lba + k) * size == lba * size + k * size;
    assert Sector(w, lba + i, size) == data[i * size .. i * size + size];
  }

  /** WRITE(10) leaves every byte outside the written sectors as it was. */
  lemma {:induction false} WriteSectorsKeepsOthers(mem: seq<byte>, lba: nat, size: nat, data: seq<byte>, k: nat, j: nat)
    requires (lba + k) * size <= |mem| && k * size <= |data| && j < |mem|
    requires j < lba * size || (lba + k) * size <= j
    ensures WriteSectors(mem, lba, size, data, k)[j] == mem[j]
  {
    assert (lba + k) * size == lba * size + k * size;
  }

  // ---------------------------------------------------------------------------
  // Device state and the outcome of a command

  /**
   * The file statics: link speed, configuration and its event bit, whether the
   * DMA channels exist, the disk geometry, the current command's length and
   * direction, the CSW residue, the sense index and the phase-error flag;
   * then mscThread's locals that live across passes of its loops: whether it
   * waits for the SET_CONFIGURATION event, whether a CBW read is queued, and
   * the last command's status. `threadHung` and `callbackHung` mark the MSC
   * thread and the USB callback context parked in CyFxAppErrorHandler's
   * endless sleep.
   */
  datatype MscState = MscState(
    usbSpeed: Speed, devConfigured: bool, setConfigEvent: bool, channelCreated: bool,
    sectorSize: nat, maxSectors: nat,
    dataTxLength: u32, cmdDirection: byte, cswResidue: u32,
    senseIndex: SenseIndex, inPhaseError: bool,
    awaitingConfig: bool, readQueued: bool, lastStatus: Status,
    threadHung: bool, callbackHung: bool)

  /** The statics' initial values, as the thread starts its outer loop. */
  const InitialState: MscState :=
    MscState(NotConnected, false, false, false, 0, 0, 0, 0, 0, SENSE_DEVICE_RESET, false,
             true, false, Passed, false, false)

  /** CyFxMscSendUSBData and CyFxMscReceiveUSBData fail at once while the link is down. */
  predicate Sent(g: MscState, dmaOk: bool)
  {
    g.usbSpeed != NotConnected && dmaOk
  }

  /** What CyFxMscParseScsiCmd leaves behind: its return value, the CSW residue and the sense index. */
  datatype Outcome = Outcome(status: Status, residue: u32, sense: SenseIndex)

  function Distance(a: nat, b: nat): nat
  {
    if a < b then b - a else a - b
  }

  /** The fields READ(10) and WRITE(10) use. */
  datatype SectorRequest = SectorRequest(lba: nat, count: nat, len: nat)

  function SectorRequestOf(cbw: seq<byte>): SectorRequest
    requires |cbw| == CBW_MAX_COUNT
  {
    SectorRequest(Lba(cbw), SectorCount(cbw), DataTxLength(cbw))
  }

  /** The request passes the zero-length test, the range check and the length check. */
  predicate SectorsAccepted(g: MscState, r: SectorRequest)
  {
    !(r.len == 0 && r.count == 0) && SectorRangeOk(r.lba, r.count, g.maxSectors) && r.count * g.sectorSize == r.len
  }

  /** An accepted request names at least one sector of a configured disk. */
  lemma AcceptedHasSectors(g: MscState, r: SectorRequest)
    requires DiskShaped(g.sectorSize, g.maxSectors) && SectorsAccepted(g, r)
    ensures g.sectorSize > 0 && r.count > 0 && r.len > 0
  {
  }

  /**
   * The sectors moved when the first `sectorsOk` transfers succeed and the
   * next one fails; while the link is down every transfer fails at once.
   */
  function Moved(g: MscState, r: SectorRequest, sectorsOk: nat): nat
  {
    Min(if g.usbSpeed == NotConnected then 0 else sectorsOk, r.count)
  }

  /** Whether one of the sector transfers failed. */
  predicate SectorTransferFailed(g: MscState, r: SectorRequest, sectorsOk: nat)
  {
    Moved(g, r, sectorsOk) < r.count
  }

  /** READ(10) and WRITE(10). */
  function SectorOutcome(g: MscState, r: SectorRequest, sectorsOk: nat): Outcome
    requires DiskShaped(g.sectorSize, g.maxSectors) && r.len < 0x1_0000_0000
  {
    if r.len == 0 && r.count == 0 then Outcome(Passed, 0, SENSE_OK)
    else if !SectorsAccepted(g, r) then Outcome(Failed, r.len, SENSE_INVALID_FIELD_IN_CBW)
    else
      var m := Moved(g, r, sectorsOk);
      SectorArithmetic(r.lba, r.count, m, g.sectorSize, g.maxSectors, r.len);
      Outcome(if SectorTransferFailed(g, r, sectorsOk) then Failed else Passed, r.len - m * g.sectorSize, SENSE_OK)
  }

  /** A command whose single data transfer to the host went out or not. */
  function SentOutcome(sent: bool, residue: u32): Outcome
  {
    Outcome(if sent then Passed else Failed, residue, SENSE_OK)
  }

  /** The cases of the parser's switch. */
  datatype Command =
    | NoDataCmd | InquiryCmd | CapacityCmd | RequestSenseCmd | ModeSenseCmd
    | ReadCmd | WriteCmd | VerifyCmd | UnknownCmd

  /** The case an opcode selects; opcodes without a case reach the default. */
  function CommandOf(op: byte): (c: Command)
    ensures c == UnknownCmd <==> op !in SUPPORTED_OPCODES
    ensures c == ReadCmd <==> op == READ_10
    ensures c == WriteCmd <==> op == WRITE_10
    ensures c == VerifyCmd <==> op == VERIFY_10
  {
    if op == TEST_UNIT_READY || op == PREVENT_ALLOW_MEDIUM then NoDataCmd
    else if op == INQUIRY then InquiryCmd
    else if op == READ_CAPACITY || op == READ_FORMAT_CAPACITY then CapacityCmd
    else if op == REQUEST_SENSE then RequestSenseCmd
    else if op == FORMAT_UNIT || op == START_STOP_UNIT || op == MODE_SENSE_6 then ModeSenseCmd
    else if op == READ_10 then ReadCmd
    else if op == WRITE_10 then WriteCmd
    else if op == VERIFY_10 then VerifyCmd
    else UnknownCmd
  }

  /** TEST UNIT READY and PREVENT ALLOW MEDIUM REMOVAL: only a zero length passes. */
  function NoDataOutcome(len: u32): Outcome
  {
    if len != 0 then Outcome(Failed, len, SENSE_INVALID_FIELD_IN_CBW) else Outcome(Passed, 0, SENSE_OK)
  }

  /** INQUIRY: both lengths non-zero send the inquiry data; the sense becomes OK either way. */
  function InquiryOutcome(len: u32, alloc: u16, sent: bool): Outcome
  {
    if len != 0 && alloc != 0 then SentOutcome(sent, Distance(len, alloc)) else Outcome(Passed, len, SENSE_OK)
  }

  /** READ CAPACITY (8 bytes) and READ FORMAT CAPACITIES (12 bytes). */
  function CapacityOutcome(op: byte, len: u32, sent: bool): Outcome
  {
    if len != 0 then SentOutcome(sent, Distance(len, if op == READ_CAPACITY then 8 else 12))
    else Outcome(Failed, 0, SENSE_INVALID_FIELD_IN_CBW)
  }

  /** REQUEST SENSE sends at most 18 bytes and, as written, fails when more than 18 are left over. */
  function SenseOutcome(len: u32, sent: bool): Outcome
  {
    if len != 0 then
      var residue := len - Min(len, RESPONSE_MAX_COUNT);
      SentOutcome(sent && residue <= RESPONSE_MAX_COUNT, residue)
    else Outcome(Failed, 0, SENSE_INVALID_FIELD_IN_CBW)
  }

  /** MODE SENSE(6), FORMAT UNIT and START STOP UNIT send the 4-byte header. */
  function ModeSenseOutcome(len: u32, sent: bool): Outcome
  {
    if len != 0 then SentOutcome(sent, Distance(len, 4)) else Outcome(Failed, 0, SENSE_INVALID_FIELD_IN_CBW)
  }

  /**
   * The switch of CyFxMscParseScsiCmd, once the direction check passed.
   * `sendOk` is the DMA result of the command's one send, `sectorsOk` how many
   * sector transfers of READ(10)/WRITE(10) succeed before one fails.
   */
  function CommandOutcome(g: MscState, cbw: seq<byte>, sendOk: bool, sectorsOk: nat): Outcome
    requires |cbw| == CBW_MAX_COUNT && DiskShaped(g.sectorSize, g.maxSectors)
  {
    var len := DataTxLength(cbw);
    var sent := Sent(g, sendOk);
    match CommandOf(Opcode(cbw))
    case NoDataCmd => NoDataOutcome(len)
    case InquiryCmd => InquiryOutcome(len, InquiryAllocation(cbw), sent)
    case CapacityCmd => CapacityOutcome(Opcode(cbw), len, sent)
    case RequestSenseCmd => SenseOutcome(len, sent)
    case ModeSenseCmd => ModeSenseOutcome(len, sent)
    case ReadCmd => SectorOutcome(g, SectorRequestOf(cbw), sectorsOk)
    case WriteCmd => SectorOutcome(g, SectorRequestOf(cbw), sectorsOk)
    case VerifyCmd => Outcome(Passed, 0, SENSE_OK)
    case UnknownCmd => Outcome(Failed, len, SENSE_INVALID_OP_CODE)
  }

  /** CyFxMscParseScsiCmd's outcome: a failed direction check skips the command and keeps the sense index. */
  function Execute(g: MscState, cbw: seq<byte>, sendOk: bool, sectorsOk: nat): Outcome
    requires |cbw| == CBW_MAX_COUNT && DiskShaped(g.sectorSize, g.maxSectors)
  {
    if DirectionPasses(cbw) then CommandOutcome(g, cbw, sendOk, sectorsOk)
    else Outcome(Failed, DataTxLength(cbw), g.senseIndex)
  }

  /** The statics after CyFxMscParseScsiCmd. */
  function Parsed(g: MscState, cbw: seq<byte>, o: Outcome): MscState
    requires |cbw| == CBW_MAX_COUNT
  {
    g.(dataTxLength := DataTxLength(cbw),
       cmdDirection := if DataTxLength(cbw) != 0 then Direction(cbw) else g.cmdDirection,
       cswResidue := o.residue, senseIndex := o.sense)
  }

  /** The reply of READ CAPACITY or READ FORMAT CAPACITIES for the current geometry. */
  function CapacityReply(op: byte, maxSectors: u32, sectorSize: u16): seq<byte>
  {
    if op == READ_FORMAT_CAPACITY then FormatCapacityData(maxSectors, sectorSize)
    else CapacityData(maxSectors, sectorSize)
  }

  /**
   * INQUIRY sends `alloc` bytes starting at the inquiry table, which holds
   * 36: the part inside the table is its first min(alloc, 36) bytes.
   */
  function InquiryPhase(len: u32, alloc: u16, sent: bool): seq<Action>
  {
    if len != 0 && alloc != 0 && sent then [InquiryToHost(InquiryData[..Min(alloc, |InquiryData|)], alloc)] else []
  }

  /**
   * A sent INQUIRY reply starts with the table, and it reads past the table's
   * end exactly when the allocation length exceeds 36 bytes: an allocation
   * length of 37..255 sends alloc - 36 bytes of whatever memory follows it.
   */
  lemma InquiryReadsPastTable(len: u32, alloc: u16)
    requires len != 0 && alloc != 0
    ensures var a := InquiryPhase(len, alloc, true)[0];
      && a.length == alloc as nat
      && a.table <= InquiryData
      && (a.length > |a.table| <==> alloc > 36)
      && (alloc > 36 ==> a.length - |a.table| == alloc as nat - 36)
      && (alloc <= 36 ==> a.table == InquiryData[..alloc])
  {
  }

  function CapacityPhase(g: MscState, op: byte, len: u32, sent: bool): seq<Action>
    requires DiskShaped(g.sectorSize, g.maxSectors)
  {
    if len != 0 && sent then [ToHost(CapacityReply(op, g.maxSectors, g.sectorSize))] else []
  }

  /** REQUEST SENSE sends the first min(len, 18) bytes of the sense data. */
  function SensePhase(i: SenseIndex, len: u32, sent: bool): seq<Action>
  {
    if len != 0 && sent then [ToHost(SenseData(i)[..Min(len, RESPONSE_MAX_COUNT)])] else []
  }

  function ModeSensePhase(len: u32, sent: bool): seq<Action>
  {
    if len != 0 && sent then [ToHost(ModeSenseData)] else []
  }

  /** What the host receives during CyFxMscParseScsiCmd; `mem` is the store. */
  function DataPhase(g: MscState, mem: seq<byte>, cbw: seq<byte>, sendOk: bool, sectorsOk: nat): seq<Action>
    requires |cbw| == CBW_MAX_COUNT && |mem| == CARD_CAPACITY && DiskShaped(g.sectorSize, g.maxSectors)
  {
    var len := DataTxLength(cbw);
    var sent := Sent(g, sendOk);
    if !DirectionPasses(cbw) then []
    else match CommandOf(Opcode(cbw))
      case InquiryCmd => InquiryPhase(len, InquiryAllocation(cbw), sent)
      case CapacityCmd => CapacityPhase(g, Opcode(cbw), len, sent)
      case RequestSenseCmd => SensePhase(g.senseIndex, len, sent)
      case ModeSenseCmd => ModeSensePhase(len, sent)
      case ReadCmd => ReadPhase(g, mem, SectorRequestOf(cbw), sectorsOk)
      case _ => []
  }

  /** glMscOutBuffer after READ CAPACITY / READ FORMAT CAPACITIES: the reply over 12 cleared bytes. */
  function CapacityBuffer(g: MscState, op: byte, len: u32, buf: seq<byte>): seq<byte>
    requires DiskShaped(g.sectorSize, g.maxSectors) && |buf| == RESPONSE_MAX_COUNT
  {
    if len == 0 then buf
    else CapacityReply(op, g.maxSectors, g.sectorSize) + (if op == READ_CAPACITY then [0, 0, 0, 0] else []) + buf[12..]
  }

  /** glMscOutBuffer after REQUEST SENSE: the whole 18-byte sense data. */
  function SenseBuffer(i: SenseIndex, len: u32, buf: seq<byte>): seq<byte>
  {
    if len == 0 then buf else SenseData(i)
  }

  /** glMscOutBuffer after MODE SENSE(6): the header over its first four bytes. */
  function ModeSenseBuffer(len: u32, buf: seq<byte>): seq<byte>
    requires |buf| == RESPONSE_MAX_COUNT
  {
    if len == 0 then buf else ModeSenseData + buf[4..]
  }

  /** glMscOutBuffer after the parser: each reply is built in place from byte 0. */
  function ResponseBuffer(g: MscState, buf: seq<byte>, cbw: seq<byte>): (r: seq<byte>)
    requires |cbw| == CBW_MAX_COUNT && |buf| == RESPONSE_MAX_COUNT && DiskShaped(g.sectorSize, g.maxSectors)
  {
    if !DirectionPasses(cbw) then buf
    else match CommandOf(Opcode(cbw))
      case CapacityCmd => CapacityBuffer(g, Opcode(cbw), DataTxLength(cbw), buf)
      case RequestSenseCmd => SenseBuffer(g.senseIndex, DataTxLength(cbw), buf)
      case ModeSenseCmd => ModeSenseBuffer(DataTxLength(cbw), buf)
      case _ => buf
  }

  /** The sectors READ(10) sends. */
  function ReadPhase(g: MscState, mem: seq<byte>, r: SectorRequest, sectorsOk: nat): seq<Action>
    requires |mem| == CARD_CAPACITY && DiskShaped(g.sectorSize, g.maxSectors)
  {
    if SectorsAccepted(g, r) then
      SectorArithmetic(r.lba, r.count, Moved(g, r, sectorsOk), g.sectorSize, g.maxSectors, r.len);
      ReadSectors(mem, r.lba, g.sectorSize, Moved(g, r, sectorsOk))
    else []
  }

  /** The store after CyFxMscParseScsiCmd; `incoming` is what the host sends for WRITE(10). */
  function StorageAfter(g: MscState, mem: seq<byte>, cbw: seq<byte>, sectorsOk: nat, incoming: seq<byte>): seq<byte>
    requires |cbw| == CBW_MAX_COUNT && |mem| == CARD_CAPACITY && DiskShaped(g.sectorSize, g.maxSectors)
    requires |incoming| == DataTxLength(cbw)
  {
    if DirectionPasses(cbw) && Opcode(cbw) == WRITE_10 then WritePhase(g, mem, SectorRequestOf(cbw), sectorsOk, incoming)
    else mem
  }

  /** The store after WRITE(10). */
  function WritePhase(g: MscState, mem: seq<byte>, r: SectorRequest, sectorsOk: nat, incoming: seq<byte>): seq<byte>
    requires |mem| == CARD_CAPACITY && DiskShaped(g.sectorSize, g.maxSectors) && |incoming| == r.len
  {
    if SectorsAccepted(g, r) then
      var m := Moved(g, r, sectorsOk);
      SectorArithmetic(r.lba, r.count, m, g.sectorSize, g.maxSectors, r.len);
      WriteSectors(mem, r.lba, g.sectorSize, incoming, m)
    else mem
  }

  // ---------------------------------------------------------------------------
  // What a command does

  /** A failed direction check fails the command with the whole length as residue and leaves sense and data alone. */
  lemma DirectionFailureSkips(g: MscState, mem: seq<byte>, cbw: seq<byte>, sendOk: bool, sectorsOk: nat)
    requires |cbw| == CBW_MAX_COUNT && |mem| == CARD_CAPACITY && DiskShaped(g.sectorSize, g.maxSectors)
    requires DataTxLength(cbw) != 0 && CheckCmdDirection(Opcode(cbw), Direction(cbw)) == Failed
    ensures Execute(g, cbw, sendOk, sectorsOk) == Outcome(Failed, DataTxLength(cbw), g.senseIndex)
    ensures DataPhase(g, mem, cbw, sendOk, sectorsOk) == []
  {
  }

  /** An opcode without a case fails with INVALID_OP_CODE and the whole length as residue, whatever its direction. */
  lemma UnknownOpcodeFails(g: MscState, cbw: seq<byte>, sendOk: bool, sectorsOk: nat)
    requires |cbw| == CBW_MAX_COUNT && DiskShaped(g.sectorSize, g.maxSectors)
    requires Opcode(cbw) !in SUPPORTED_OPCODES
    ensures Execute(g, cbw, sendOk, sectorsOk) == Outcome(Failed, DataTxLength(cbw), SENSE_INVALID_OP_CODE)
  {
  }

  /** TEST UNIT READY and PREVENT ALLOW MEDIUM REMOVAL succeed exactly when no data is to move. */
  lemma NoDataCommands(g: MscState, cbw: seq<byte>, sendOk: bool, sectorsOk: nat)
    requires |cbw| == CBW_MAX_COUNT && DiskShaped(g.sectorSize, g.maxSectors)
    requires Opcode(cbw) == TEST_UNIT_READY || Opcode(cbw) == PREVENT_ALLOW_MEDIUM
    ensures Execute(g, cbw, sendOk, sectorsOk).status == Passed <==> DataTxLength(cbw) == 0
    ensures DataTxLength(cbw) == 0 ==> Execute(g, cbw, sendOk, sectorsOk) == Outcome(Passed, 0, SENSE_OK)
    ensures Execute(g, cbw, sendOk, sectorsOk).residue == DataTxLength(cbw)
  {
  }

  /** VERIFY(10) is acknowledged without looking at the disk whenever the direction check lets it through. */
  lemma VerifySucceeds(g: MscState, cbw: seq<byte>, sendOk: bool, sectorsOk: nat)
    requires |cbw| == CBW_MAX_COUNT && DiskShaped(g.sectorSize, g.maxSectors)
    requires Opcode(cbw) == VERIFY_10
    ensures Execute(g, cbw, sendOk, sectorsOk) == Outcome(Passed, 0, SENSE_OK)
        <==> DataTxLength(cbw) == 0 || Direction(cbw) == 1
  {
  }

  /** READ CAPACITY and READ FORMAT CAPACITIES fail with INVALID_FIELD when no data is to move. */
  lemma CapacityZeroLength(g: MscState, cbw: seq<byte>, sendOk: bool, sectorsOk: nat)
    requires |cbw| == CBW_MAX_COUNT && DiskShaped(g.sectorSize, g.maxSectors)
    requires Opcode(cbw) == READ_CAPACITY || Opcode(cbw) == READ_FORMAT_CAPACITY
    requires DataTxLength(cbw) == 0
    ensures Execute(g, cbw, sendOk, sectorsOk) == Outcome(Failed, 0, SENSE_INVALID_FIELD_IN_CBW)
  {
  }

  /**
   * Otherwise the residue is the distance between the length and the reply's
   * size, the sense becomes OK, and only a failed send fails.
   */
  lemma CapacityResidue(g: MscState, cbw: seq<byte>, sendOk: bool, sectorsOk: nat)
    requires |cbw| == CBW_MAX_COUNT && DiskShaped(g.sectorSize, g.maxSectors)
    requires Opcode(cbw) == READ_CAPACITY || Opcode(cbw) == READ_FORMAT_CAPACITY
    requires DirectionPasses(cbw) && DataTxLength(cbw) != 0
    ensures Execute(g, cbw, sendOk, sectorsOk)
         == Outcome(if Sent(g, sendOk) then Passed else Failed,
                    Distance(DataTxLength(cbw), if Opcode(cbw) == READ_CAPACITY then 8 else 12), SENSE_OK)
  {
  }

  /** The reply that goes out is the capacity layout for the current geometry. */
  lemma CapacitySent(g: MscState, mem: seq<byte>, cbw: seq<byte>, sendOk: bool, sectorsOk: nat)
    requires |cbw| == CBW_MAX_COUNT && |mem| == CARD_CAPACITY && DiskShaped(g.sectorSize, g.maxSectors)
    requires Opcode(cbw) == READ_CAPACITY || Opcode(cbw) == READ_FORMAT_CAPACITY
    requires DirectionPasses(cbw) && DataTxLength(cbw) != 0
    ensures DataPhase(g, mem, cbw, sendOk, sectorsOk)
         == if Sent(g, sendOk) then [ToHost(CapacityReply(Opcode(cbw), g.maxSectors, g.sectorSize))] else []
    ensures |CapacityReply(Opcode(cbw), g.maxSectors, g.sectorSize)| == if Opcode(cbw) == READ_CAPACITY then 8 else 12
  {
  }

  /**
   * REQUEST SENSE reports the current sense row, sends at most 18 bytes and
   * resets the sense to OK; it fails on a failed send and, as written, also
   * whenever more than 36 bytes were asked for.
   */
  lemma RequestSenseCommand(g: MscState, mem: seq<byte>, cbw: seq<byte>, sendOk: bool, sectorsOk: nat)
    requires |cbw| == CBW_MAX_COUNT && |mem| == CARD_CAPACITY && DiskShaped(g.sectorSize, g.maxSectors)
    requires Opcode(cbw) == REQUEST_SENSE && DirectionPasses(cbw) && DataTxLength(cbw) != 0
    ensures Execute(g, cbw, sendOk, sectorsOk).sense == SENSE_OK
    ensures Execute(g, cbw, sendOk, sectorsOk).residue == DataTxLength(cbw) - Min(DataTxLength(cbw), RESPONSE_MAX_COUNT)
    ensures Execute(g, cbw, sendOk, sectorsOk).status == Passed
        <==> Sent(g, sendOk) && DataTxLength(cbw) <= 2 * RESPONSE_MAX_COUNT
    ensures DataPhase(g, mem, cbw, sendOk, sectorsOk)
         == if Sent(g, sendOk) then [ToHost(SenseData(g.senseIndex)[..Min(DataTxLength(cbw), RESPONSE_MAX_COUNT)])] else []
  {
  }

  /** A READ(10)/WRITE(10) the checks reject fails with INVALID_FIELD, moves nothing and keeps the store. */
  lemma SectorCommandRejected(g: MscState, mem: seq<byte>, cbw: seq<byte>, sendOk: bool, sectorsOk: nat, incoming: seq<byte>)
    requires |cbw| == CBW_MAX_COUNT && |mem| == CARD_CAPACITY && DiskShaped(g.sectorSize, g.maxSectors)
    requires |incoming| == DataTxLength(cbw)
    requires Opcode(cbw) == READ_10 || Opcode(cbw) == WRITE_10
    requires DirectionPasses(cbw) && !(DataTxLength(cbw) == 0 && SectorCount(cbw) == 0)
    requires !SectorsAccepted(g, SectorRequestOf(cbw))
    ensures Execute(g, cbw, sendOk, sectorsOk) == Outcome(Failed, DataTxLength(cbw), SENSE_INVALID_FIELD_IN_CBW)
    ensures DataPhase(g, mem, cbw, sendOk, sectorsOk) == []
    ensures StorageAfter(g, mem, cbw, sectorsOk, incoming) == mem
  {
  }

  /** READ(10) and WRITE(10) that pass the direction check are decided by SectorOutcome. */
  lemma SectorCommand(g: MscState, cbw: seq<byte>, sendOk: bool, sectorsOk: nat)
    requires |cbw| == CBW_MAX_COUNT && DiskShaped(g.sectorSize, g.maxSectors)
    requires Opcode(cbw) == READ_10 || Opcode(cbw) == WRITE_10
    requires DirectionPasses(cbw)
    ensures Execute(g, cbw, sendOk, sectorsOk) == SectorOutcome(g, SectorRequestOf(cbw), sectorsOk)
  {
    assert Execute(g, cbw, sendOk, sectorsOk) == CommandOutcome(g, cbw, sendOk, sectorsOk);
    SectorCase(g, cbw, sendOk, sectorsOk);
  }

  lemma SectorCase(g: MscState, cbw: seq<byte>, sendOk: bool, sectorsOk: nat)
    requires |cbw| == CBW_MAX_COUNT && DiskShaped(g.sectorSize, g.maxSectors)
    requires CommandOf(Opcode(cbw)) == ReadCmd || CommandOf(Opcode(cbw)) == WriteCmd
    ensures CommandOutcome(g, cbw, sendOk, sectorsOk) == SectorOutcome(g, SectorRequestOf(cbw), sectorsOk)
  {
  }

  /**
   * An accepted READ(10)/WRITE(10) ends with sense OK and, as residue, the
   * bytes of the sectors it did not move; it fails exactly when a transfer
   * failed.
   */
  lemma {:induction false} SectorCommandAccepted(g: MscState, r: SectorRequest, sectorsOk: nat)
    requires DiskShaped(g.sectorSize, g.maxSectors) && r.len < 0x1_0000_0000 && SectorsAccepted(g, r)
    ensures SectorOutcome(g, r, sectorsOk).sense == SENSE_OK
    ensures SectorOutcome(g, r, sectorsOk).residue == (r.count - Moved(g, r, sectorsOk)) * g.sectorSize
    ensures SectorOutcome(g, r, sectorsOk).status == Failed <==> SectorTransferFailed(g, r, sectorsOk)
  {
    var m := Moved(g, r, sectorsOk);
    assert r.len - m * g.sectorSize == (r.count - m) * g.sectorSize;
  }

  /** With every transfer succeeding on a connected link, an accepted request moves all its sectors and passes. */
  lemma SectorCommandCompletes(g: MscState, r: SectorRequest, sectorsOk: nat)
    requires DiskShaped(g.sectorSize, g.maxSectors) && r.len < 0x1_0000_0000 && SectorsAccepted(g, r)
    requires g.usbSpeed != NotConnected && sectorsOk >= r.count
    ensures SectorOutcome(g, r, sectorsOk) == Outcome(Passed, 0, SENSE_OK)
  {
    SectorCommandAccepted(g, r, sectorsOk);
  }

  /** The parser reports only PASSED or FAILED: phase errors come from the CBW check alone. */
  lemma ParseNeverResets(g: MscState, cbw: seq<byte>, sendOk: bool, sectorsOk: nat)
    requires |cbw| == CBW_MAX_COUNT && DiskShaped(g.sectorSize, g.maxSectors)
    ensures Execute(g, cbw, sendOk, sectorsOk).status in {Passed, Failed}
  {
    if DirectionPasses(cbw) {
      match CommandOf(Opcode(cbw))
      case ReadCmd =>
        assert SectorOutcome(g, SectorRequestOf(cbw), sectorsOk).status in {Passed, Failed};
      case WriteCmd =>
        assert SectorOutcome(g, SectorRequestOf(cbw), sectorsOk).status in {Passed, Failed};
      case _ =>
    }
  }

  // ---------------------------------------------------------------------------
  // The command status wrapper and one received command

  /** The SDK calls of a phase error: NAK, stall both bulk endpoints, reset both channels, flush, end the NAK. */
  const PhaseErrorActions: seq<Action> :=
    [EpNak(EP_BULK_IN, true), Stall(EP_BULK_IN), Stall(EP_BULK_OUT), ChannelReset(MscIn), ChannelReset(MscOut),
     FlushEp(EP_BULK_IN), FlushEp(EP_BULK_OUT), EpNak(EP_BULK_IN, false)]

  /** The SDK calls of a failed device-to-host command: only the bulk-IN side is stalled and flushed. */
  const FailedInActions: seq<Action> :=
    [EpNak(EP_BULK_IN, true), Stall(EP_BULK_IN), ChannelReset(MscIn), FlushEp(EP_BULK_IN), EpNak(EP_BULK_IN, false)]

  /** CyFxMscSendCsw's effect on the statics: a phase error latches glInPhaseError. */
  function CswSent(g: MscState, status: Status): MscState
  {
    g.(inPhaseError := g.inPhaseError || status == PhaseError)
  }

  /**
   * The endpoint handling CyFxMscSendCsw does for its status: a phase error
   * stalls both bulk endpoints; a failed command stalls only when data was to
   * move, and only the endpoint of its direction.
   */
  function CswStallActions(g: MscState, status: Status): seq<Action>
  {
    if status == PhaseError then PhaseErrorActions
    else if status == Failed && g.dataTxLength != 0 then
      (if g.cmdDirection == 0 then [Stall(EP_BULK_OUT)] else FailedInActions)
    else []
  }

  /** CyFxMscSendCsw's SDK calls: the endpoint handling, then the 13-byte CSW. */
  function CswActions(g: MscState, tag: seq<byte>, status: Status, cswOk: bool): seq<Action>
    requires |tag| == 4
  {
    CswStallActions(g, status) + (if Sent(g, cswOk) then [ToHost(CswBytes(tag, g.cswResidue, status))] else [])
  }

  /** What CyFxMscSendCsw returns: its argument, or MSC_RESET when the CSW could not be sent. */
  function CswReturn(g: MscState, status: Status, cswOk: bool): Status
  {
    if Sent(g, cswOk) then status else MscReset
  }

  /** The status mscThread hands to CyFxMscSendCsw for a received CBW. */
  function CommandStatus(g: MscState, cbw: seq<byte>, count: nat, sendOk: bool, sectorsOk: nat): Status
    requires |cbw| == CBW_MAX_COUNT && DiskShaped(g.sectorSize, g.maxSectors)
  {
    if CheckScsiCmd(cbw, count) == Passed then Execute(g, cbw, sendOk, sectorsOk).status else PhaseError
  }

  /** The statics once the CBW is checked and, if valid, parsed. */
  function CommandParsed(g: MscState, cbw: seq<byte>, count: nat, sendOk: bool, sectorsOk: nat): MscState
    requires |cbw| == CBW_MAX_COUNT && DiskShaped(g.sectorSize, g.maxSectors)
  {
    if CheckScsiCmd(cbw, count) == Passed then Parsed(g, cbw, Execute(g, cbw, sendOk, sectorsOk)) else g
  }

  /** The tag the CSW carries: the CBW's when it was valid, else the one left from before. */
  function CommandTag(tag: seq<byte>, cbw: seq<byte>, count: nat): seq<byte>
    requires |cbw| == CBW_MAX_COUNT
  {
    if CheckScsiCmd(cbw, count) == Passed then cbw[4..8] else tag
  }

  /** The statics after mscThread served one received CBW (check, parse, CSW). */
  function CommandSpec(g: MscState, cbw: seq<byte>, count: nat, sendOk: bool, sectorsOk: nat): MscState
    requires |cbw| == CBW_MAX_COUNT && DiskShaped(g.sectorSize, g.maxSectors)
  {
    CommandAfter(g, cbw, count, Execute(g, cbw, sendOk, sectorsOk))
  }

  /** The same, for the parser's outcome `o`. */
  function CommandAfter(g: MscState, cbw: seq<byte>, count: nat, o: Outcome): MscState
    requires |cbw| == CBW_MAX_COUNT
  {
    var valid := CheckScsiCmd(cbw, count) == Passed;
    var status := if valid then o.status else PhaseError;
    CswSent(if valid then Parsed(g, cbw, o) else g, status).(lastStatus := status, readQueued := false)
  }

  /**
   * A CBW has arrived: the thread disables LPM and, on a super-speed link,
   * moves the link back to U0 before it looks at the command.
   */
  function WakeActions(g: MscState): (acts: seq<Action>)
    ensures |acts| > 0 && acts[0] == LpmDisable
    ensures LinkToU0 in acts <==> g.usbSpeed == SuperSpeed
  {
    [LpmDisable] + (if g.usbSpeed == SuperSpeed then [LinkToU0] else [])
  }

  /** The SDK calls and host transfers of one received CBW; `tag` is what the CSW buffer held before. */
  function CommandActions(g: MscState, mem: seq<byte>, tag: seq<byte>, cbw: seq<byte>, count: nat,
                          sendOk: bool, sectorsOk: nat, cswOk: bool): seq<Action>
    requires |cbw| == CBW_MAX_COUNT && |mem| == CARD_CAPACITY && DiskShaped(g.sectorSize, g.maxSectors) && |tag| == 4
  {
    var g1 := CommandParsed(g, cbw, count, sendOk, sectorsOk);
    WakeActions(g)
    + (if CheckScsiCmd(cbw, count) == Passed then DataPhase(g, mem, cbw, sendOk, sectorsOk) else [])
    + CswActions(g1, CommandTag(tag, cbw, count), CommandStatus(g, cbw, count, sendOk, sectorsOk), cswOk)
  }

  /** The store after one received CBW. */
  function CommandStorage(g: MscState, mem: seq<byte>, cbw: seq<byte>, count: nat, sectorsOk: nat, incoming: seq<byte>): seq<byte>
    requires |cbw| == CBW_MAX_COUNT && |mem| == CARD_CAPACITY && DiskShaped(g.sectorSize, g.maxSectors)
    requires |incoming| == DataTxLength(cbw)
  {
    if CheckScsiCmd(cbw, count) == Passed then StorageAfter(g, mem, cbw, sectorsOk, incoming) else mem
  }

  /** For a CBW that passed the check, the specifications above in terms of the parser's outcome. */
  lemma ValidCommandForms(g: MscState, mem: seq<byte>, tag: seq<byte>, cbw: seq<byte>, count: nat,
                          sendOk: bool, sectorsOk: nat, incoming: seq<byte>, cswOk: bool)
    requires |cbw| == CBW_MAX_COUNT && |mem| == CARD_CAPACITY && DiskShaped(g.sectorSize, g.maxSectors) && |tag| == 4
    requires |incoming| == DataTxLength(cbw) && CheckScsiCmd(cbw, count) == Passed
    ensures var o := Execute(g, cbw, sendOk, sectorsOk);
      && CommandSpec(g, cbw, count, sendOk, sectorsOk) == CswSent(Parsed(g, cbw, o), o.status).(lastStatus := o.status, readQueued := false)
      && CommandActions(g, mem, tag, cbw, count, sendOk, sectorsOk, cswOk)
         == WakeActions(g) + (DataPhase(g, mem, cbw, sendOk, sectorsOk) + CswActions(Parsed(g, cbw, o), cbw[4..8], o.status, cswOk))
      && CommandStorage(g, mem, cbw, count, sectorsOk, incoming) == StorageAfter(g, mem, cbw, sectorsOk, incoming)
      && CommandTag(tag, cbw, count) == cbw[4..8]
      && CommandParsed(g, cbw, count, sendOk, sectorsOk).cswResidue == Parsed(g, cbw, o).cswResidue
      && CommandStatus(g, cbw, count, sendOk, sectorsOk) == o.status
  {
  }

  /** For a CBW that failed the check, the specifications above: a phase-error CSW and nothing else. */
  lemma InvalidCommandForms(g: MscState, mem: seq<byte>, tag: seq<byte>, cbw: seq<byte>, count: nat,
                            sendOk: bool, sectorsOk: nat, incoming: seq<byte>, cswOk: bool)
    requires |cbw| == CBW_MAX_COUNT && |mem| == CARD_CAPACITY && DiskShaped(g.sectorSize, g.maxSectors) && |tag| == 4
    requires |incoming| == DataTxLength(cbw) && CheckScsiCmd(cbw, count) != Passed
    ensures CommandSpec(g, cbw, count, sendOk, sectorsOk) == CswSent(g, PhaseError).(lastStatus := PhaseError, readQueued := false)
    ensures CommandActions(g, mem, tag, cbw, count, sendOk, sectorsOk, cswOk) == WakeActions(g) + CswActions(g, tag, PhaseError, cswOk)
    ensures CommandStorage(g, mem, cbw, count, sectorsOk, incoming) == mem
    ensures CommandTag(tag, cbw, count) == tag
    ensures CommandParsed(g, cbw, count, sendOk, sectorsOk) == g && CommandStatus(g, cbw, count, sendOk, sectorsOk) == PhaseError
  {
  }

  // ---------------------------------------------------------------------------
  // mscThread's other passes

  /**
   * The SET_CONFIGURATION event: the geometry of the link speed, both DMA
   * channels created and both endpoints flushed. No speed, or a failed
   * creation of either channel, parks the thread. Without the event the thread stays
   * blocked and nothing changes.
   */
  function ConfigSpec(g: MscState, inOk: bool, outOk: bool): MscState
  {
    if !g.setConfigEvent then g
    else match Geometry(g.usbSpeed)
      case None => g.(setConfigEvent := false, threadHung := true)
      case Some(d) =>
        g.(setConfigEvent := false, sectorSize := d.sectorSize, maxSectors := d.maxSectors,
           threadHung := !(inOk && outOk), channelCreated := g.channelCreated || (inOk && outOk),
           awaitingConfig := !(inOk && outOk), readQueued := false)
  }

  /**
   * The SDK calls of the configuration wait: the IN channel is created first,
   * the OUT channel only once that succeeded, and the endpoints are flushed
   * only once both exist.
   */
  function ConfigActions(g: MscState, inOk: bool, outOk: bool): (acts: seq<Action>)
    ensures g.setConfigEvent && g.usbSpeed != NotConnected ==> |acts| > 0 && acts[0].ChannelCreate? && acts[0].ch == MscIn
    ensures FlushEp(EP_BULK_IN) in acts <==> g.setConfigEvent && g.usbSpeed != NotConnected && inOk && outOk
  {
    if g.setConfigEvent && g.usbSpeed != NotConnected then
      var size := Geometry(g.usbSpeed).value.sectorSize;
      [ChannelCreate(MscIn, size)]
      + (if inOk then [ChannelCreate(MscOut, size)] else [])
      + (if inOk && outOk then [FlushEp(EP_BULK_OUT), FlushEp(EP_BULK_IN)] else [])
    else []
  }

  /** The reset branch: sense DEVICE_RESET. */
  function ResetSpec(g: MscState): MscState
  {
    g.(senseIndex := SENSE_DEVICE_RESET)
  }

  /** The reset branch stalls both bulk endpoints and resets the channels that exist. */
  function ResetActions(g: MscState): seq<Action>
  {
    [Stall(EP_BULK_OUT), Stall(EP_BULK_IN)]
    + (if g.channelCreated then [ChannelReset(MscIn), ChannelReset(MscOut)] else [])
  }

  /** A lost link ends the inner loop: the channels go, the sense becomes DEVICE_RESET, the thread waits for a configuration. */
  function DisconnectSpec(g: MscState): MscState
  {
    if g.usbSpeed == NotConnected then
      g.(channelCreated := false, senseIndex := SENSE_DEVICE_RESET, awaitingConfig := true)
    else g
  }

  function DisconnectActions(g: MscState): seq<Action>
  {
    if g.usbSpeed == NotConnected && g.channelCreated then [ChannelDestroy(MscIn), ChannelDestroy(MscOut)] else []
  }

  // ---------------------------------------------------------------------------
  // The USB callbacks

  /** The link events CyFxMscApplnUSBEventCB reacts to, and the rest. */
  datatype UsbEvent = Reset | Suspend | Disconnect | Connect | OtherEvent

  /** Reset, suspend, disconnect and connect: sense DEVICE_RESET, no speed, unconfigured. */
  function UsbEventSpec(g: MscState, ev: UsbEvent): MscState
  {
    if ev == OtherEvent then g
    else g.(senseIndex := SENSE_DEVICE_RESET, usbSpeed := NotConnected, devConfigured := false)
  }

  /** They abort both channels when these exist. */
  function UsbEventActions(g: MscState, ev: UsbEvent): seq<Action>
  {
    if ev != OtherEvent && g.channelCreated then [ChannelAbort(MscIn), ChannelAbort(MscOut)] else []
  }

  /** SET_FEATURE or CLEAR_FEATURE(FUNCTION_SUSPEND) to an interface. */
  predicate IsFunctionSuspend(s: Setup)
  {
    Target(s.bmRequestType) == TARGET_INTF
    && (s.bRequest == SC_SET_FEATURE || s.bRequest == SC_CLEAR_FEATURE) && s.wValue == 0
  }

  /**
   * A standard request: SET_CONFIGURATION configures the device once, at the
   * speed the link reports, and raises the event for the thread; failing to
   * configure either endpoint parks the callback context.
   */
  function StandardSpec(g: MscState, s: Setup, linkSpeed: Speed, outOk: bool, inOk: bool): MscState
  {
    if s.bRequest == SC_SET_CONFIGURATION && !g.devConfigured then
      g.(devConfigured := true, usbSpeed := linkSpeed,
         setConfigEvent := g.setConfigEvent || (outOk && inOk), callbackHung := g.callbackHung || !(outOk && inOk))
    else g
  }

  /** FUNCTION_SUSPEND is acknowledged when configured and stalled otherwise. */
  function SuspendActions(g: MscState, s: Setup): seq<Action>
  {
    if IsFunctionSuspend(s) then [if g.devConfigured then Ep0Ack else Ep0Stall] else []
  }

  /**
   * SET_CONFIGURATION, the first time, configures the OUT and then the IN bulk
   * endpoint with the speed's packet size; the IN call is made only when the
   * OUT one succeeded, as the error handler never returns.
   */
  function SetConfigActions(g: MscState, linkSpeed: Speed, outOk: bool): seq<Action>
  {
    if g.devConfigured then []
    else [ConfigureEp(EP_BULK_OUT, PacketSize(linkSpeed))] + (if outOk then [ConfigureEp(EP_BULK_IN, PacketSize(linkSpeed))] else [])
  }

  /** CLEAR_FEATURE is acknowledged outright during a phase error, else it clears the stall of the bulk endpoint in wIndex. */
  function ClearFeatureActions(g: MscState, wIndex: u16): seq<Action>
  {
    if g.inPhaseError then [Ep0Ack]
    else (if wIndex == EP_BULK_IN then [ClearStall(EP_BULK_IN), Ep0Ack] else [])
         + (if wIndex == EP_BULK_OUT then [ClearStall(EP_BULK_OUT), Ep0Ack] else [])
  }

  /** The SDK calls of a standard request. */
  function StandardActions(g: MscState, s: Setup, linkSpeed: Speed, outOk: bool, inOk: bool): seq<Action>
  {
    SuspendActions(g, s)
    + (if s.bRequest == SC_SET_CONFIGURATION then SetConfigActions(g, linkSpeed, outOk)
       else if s.bRequest == SC_CLEAR_FEATURE then ClearFeatureActions(g, s.wIndex)
       else [])
  }

  /** SET_CONFIGURATION itself is left to the SDK: the callback reports it unhandled. */
  predicate StandardHandled(g: MscState, s: Setup)
  {
    IsFunctionSuspend(s)
    || (s.bRequest == SC_CLEAR_FEATURE
        && (g.inPhaseError || s.wIndex == EP_BULK_IN || s.wIndex == EP_BULK_OUT))
  }

  /** A class request to the mass-storage interface with wValue 0. */
  predicate IsMscRequest(s: Setup)
  {
    Target(s.bmRequestType) == TARGET_INTF && s.wIndex == MSC_INTF && s.wValue == 0
  }

  /** Bulk-Only Mass Storage Reset (section 3.1 of the Bulk-Only Transport) clears the phase error; with wLength 0 it also sets sense DEVICE_RESET. */
  function ClassSpec(g: MscState, s: Setup): MscState
  {
    if IsMscRequest(s) && s.bRequest == BOT_RESET_REQ then
      g.(inPhaseError := false, senseIndex := if s.wLength == 0 then SENSE_DEVICE_RESET else g.senseIndex)
    else g
  }

  /**
   * Get Max LUN (section 3.2) answers the single byte 0 when wLength is 1;
   * the reset acknowledges, resets the channels that exist, flushes and
   * un-stalls both bulk endpoints; anything else, or a failed EP0 send,
   * stalls EP0.
   */
  function ClassActions(g: MscState, s: Setup, ep0Ok: bool): seq<Action>
  {
    if IsMscRequest(s) && s.bRequest == GET_MAX_LUN_REQ && s.wLength == 1 then
      [Ep0Send([0])] + (if ep0Ok then [] else [Ep0Stall])
    else if IsMscRequest(s) && s.bRequest == BOT_RESET_REQ && s.wLength == 0 then
      [Ep0Ack] + (if g.channelCreated then [ChannelReset(MscOut), ChannelReset(MscIn)] else [])
      + [FlushEp(EP_BULK_OUT), ClearStall(EP_BULK_OUT), FlushEp(EP_BULK_IN), ClearStall(EP_BULK_IN)]
    else [Ep0Stall]
  }

  /** The class requests the callback claims: Get Max LUN of length 1 and every Bulk-Only reset. */
  predicate ClassHandled(s: Setup)
  {
    IsMscRequest(s) && ((s.bRequest == GET_MAX_LUN_REQ && s.wLength == 1) || s.bRequest == BOT_RESET_REQ)
  }

  /** The statics after CyFxMscApplnUSBSetupCB. */
  function SetupSpec(g: MscState, s: Setup, linkSpeed: Speed, outOk: bool, inOk: bool): MscState
  {
    var t := RequestType(s.bmRequestType);
    if t == STANDARD_RQT then StandardSpec(g, s, linkSpeed, outOk, inOk)
    else if t == CLASS_RQT then ClassSpec(g, s)
    else g
  }

  function SetupActions(g: MscState, s: Setup, linkSpeed: Speed, outOk: bool, inOk: bool, ep0Ok: bool): seq<Action>
  {
    var t := RequestType(s.bmRequestType);
    if t == STANDARD_RQT then StandardActions(g, s, linkSpeed, outOk, inOk)
    else if t == CLASS_RQT then ClassActions(g, s, ep0Ok)
    else []
  }

  predicate SetupHandled(g: MscState, s: Setup)
  {
    var t := RequestType(s.bmRequestType);
    if t == STANDARD_RQT then StandardHandled(g, s)
    else t == CLASS_RQT && ClassHandled(s)
  }

  /** CyFxMscApplnLPMRqtCB: every U1/U2 entry is accepted. */
  function LpmRequestAccepted(): (accept: bool)
    ensures accept
  {
    true
  }

  // ---------------------------------------------------------------------------
  // The head of an inner-loop pass, and runs of the device

  /**
   * An inner-loop pass starts by dropping the queued read during a phase
   * error; otherwise a read not yet queued is set up, and a failed set-up
   * takes the reset branch.
   */
  function QueueSpec(g: MscState, setupOk: bool): MscState
  {
    if g.inPhaseError then g.(readQueued := false)
    else if g.readQueued then g
    else if setupOk then g.(readQueued := true)
    else ResetSpec(g)
  }

  function QueueActions(g: MscState, setupOk: bool): seq<Action>
  {
    if g.inPhaseError || g.readQueued then []
    else if setupOk then [RecvQueued, LpmEnable]
    else ResetActions(g)
  }

  /**
   * What can happen next: one of the thread's passes (the read set-up, a
   * received CBW, the configuration wait, the link check) or one of the USB
   * callbacks. Steps are taken in any order; one that cannot happen in the
   * current state changes nothing.
   */
  datatype MscStep =
    | QueueRead(setupOk: bool)
    | ServeCbw(cbw: seq<byte>, count: nat, sendOk: bool, sectorsOk: nat)
    | TakeConfig(inOk: bool, outOk: bool)
    | CheckLink
    | LinkEvent(ev: UsbEvent)
    | SetupRequest(s: Setup, linkSpeed: Speed, outOk: bool, inOk: bool)

  predicate WellFormed(step: MscStep)
  {
    step.ServeCbw? ==> |step.cbw| == CBW_MAX_COUNT
  }

  /**
   * The thread waits for the configuration event, then runs the inner loop,
   * where a CBW arrives only on a queued read; a parked thread or callback
   * context does nothing more. During a phase error the loop starts over
   * before its disconnect check, so that check is reached only outside one.
   */
  predicate StepEnabled(g: MscState, step: MscStep)
  {
    match step
    case QueueRead(_) => !g.awaitingConfig && !g.threadHung
    case ServeCbw(_, _, _, _) => !g.awaitingConfig && !g.threadHung && g.readQueued
    case TakeConfig(_, _) => g.awaitingConfig && !g.threadHung
    case CheckLink => !g.awaitingConfig && !g.threadHung && !g.inPhaseError
    case LinkEvent(_) => !g.callbackHung
    case SetupRequest(_, _, _, _) => !g.callbackHung
  }

  function StepSpec(g: MscState, step: MscStep): MscState
    requires WellFormed(step) && DiskShaped(g.sectorSize, g.maxSectors)
  {
    match step
    case QueueRead(setupOk) => QueueSpec(g, setupOk)
    case ServeCbw(cbw, count, sendOk, sectorsOk) => CommandSpec(g, cbw, count, sendOk, sectorsOk)
    case TakeConfig(inOk, outOk) => ConfigSpec(g, inOk, outOk)
    case CheckLink => DisconnectSpec(g)
    case LinkEvent(ev) => UsbEventSpec(g, ev)
    case SetupRequest(s, linkSpeed, outOk, inOk) => SetupSpec(g, s, linkSpeed, outOk, inOk)
  }

  /**
   * What holds of the statics at every point: a geometry of the store, never
   * a remembered MSC_RESET, no read queued during a phase error, and outside
   * the configuration wait a configured disk with both channels.
   */
  predicate Inv(g: MscState)
  {
    && DiskShaped(g.sectorSize, g.maxSectors)
    && g.lastStatus != MscReset
    && (g.inPhaseError ==> !g.readQueued)
    && (!g.awaitingConfig ==> g.sectorSize > 0 && g.channelCreated)
  }

  /** A received CBW keeps the invariant and latches a phase error, for any outcome the parser can report. */
  lemma CommandAfterKeepsInv(g: MscState, cbw: seq<byte>, count: nat, o: Outcome)
    requires Inv(g) && |cbw| == CBW_MAX_COUNT && o.status in {Passed, Failed}
    ensures Inv(CommandAfter(g, cbw, count, o))
    ensures CommandAfter(g, cbw, count, o).inPhaseError <==> g.inPhaseError || CheckScsiCmd(cbw, count) != Passed
  {
  }

  lemma CommandKeepsInv(g: MscState, cbw: seq<byte>, count: nat, sendOk: bool, sectorsOk: nat)
    requires Inv(g) && |cbw| == CBW_MAX_COUNT
    ensures Inv(CommandSpec(g, cbw, count, sendOk, sectorsOk))
    ensures CommandSpec(g, cbw, count, sendOk, sectorsOk).inPhaseError <==> g.inPhaseError || CheckScsiCmd(cbw, count) != Passed
  {
    ParseNeverResets(g, cbw, sendOk, sectorsOk);
    CommandAfterKeepsInv(g, cbw, count, Execute(g, cbw, sendOk, sectorsOk));
  }

  /** The configuration wait keeps the invariant and the phase error. */
  lemma ConfigKeepsInv(g: MscState, inOk: bool, outOk: bool)
    requires Inv(g)
    ensures Inv(ConfigSpec(g, inOk, outOk)) && ConfigSpec(g, inOk, outOk).inPhaseError == g.inPhaseError
  {
    if g.setConfigEvent && g.usbSpeed != NotConnected {
      GeometryShaped(g.usbSpeed);
    }
  }

  /** A standard request keeps the invariant and the phase error. */
  lemma StandardKeepsInv(g: MscState, s: Setup, linkSpeed: Speed, outOk: bool, inOk: bool)
    requires Inv(g)
    ensures Inv(StandardSpec(g, s, linkSpeed, outOk, inOk)) && StandardSpec(g, s, linkSpeed, outOk, inOk).inPhaseError == g.inPhaseError
  {
  }

  /** A class request keeps the invariant; the Bulk-Only reset clears the phase error. */
  lemma ClassKeepsInv(g: MscState, s: Setup)
    requires Inv(g)
    ensures Inv(ClassSpec(g, s))
    ensures ClassSpec(g, s).inPhaseError == (g.inPhaseError && !(IsMscRequest(s) && s.bRequest == BOT_RESET_REQ))
  {
  }

  /** A setup request keeps the invariant; only the Bulk-Only reset clears the phase error. */
  lemma SetupKeepsInv(g: MscState, s: Setup, linkSpeed: Speed, outOk: bool, inOk: bool)
    requires Inv(g)
    ensures Inv(SetupSpec(g, s, linkSpeed, outOk, inOk))
    ensures SetupSpec(g, s, linkSpeed, outOk, inOk).inPhaseError
        == (g.inPhaseError && !IsBotReset(SetupRequest(s, linkSpeed, outOk, inOk)))
  {
    var t := RequestType(s.bmRequestType);
    var r := SetupSpec(g, s, linkSpeed, outOk, inOk);
    if t == STANDARD_RQT {
      assert r == StandardSpec(g, s, linkSpeed, outOk, inOk);
      StandardKeepsInv(g, s, linkSpeed, outOk, inOk);
    } else if t == CLASS_RQT {
      assert r == ClassSpec(g, s);
      ClassKeepsInv(g, s);
    } else {
      assert r == g;
    }
  }

  /**
   * Every step keeps the invariant; a phase error is set only by a received
   * CBW (always by one that fails the check) and cleared only by the
   * Bulk-Only reset.
   */
  lemma StepKeepsInv(g: MscState, step: MscStep)
    requires Inv(g) && WellFormed(step)
    ensures Inv(StepSpec(g, step))
    ensures StepSpec(g, step).inPhaseError ==> g.inPhaseError || step.ServeCbw?
    ensures step.ServeCbw? && CheckScsiCmd(step.cbw, step.count) != Passed ==> StepSpec(g, step).inPhaseError
    ensures g.inPhaseError && !IsBotReset(step) ==> StepSpec(g, step).inPhaseError
    ensures IsBotReset(step) ==> !StepSpec(g, step).inPhaseError
  {
    if step.ServeCbw? {
      ServeKeepsInv(g, step);
    } else if step.SetupRequest? {
      SetupStepKeepsInv(g, step);
    } else {
      ThreadStepKeepsInv(g, step);
    }
  }

  lemma ServeKeepsInv(g: MscState, step: MscStep)
    requires Inv(g) && WellFormed(step) && step.ServeCbw?
    ensures Inv(StepSpec(g, step))
    ensures StepSpec(g, step).inPhaseError <==> g.inPhaseError || CheckScsiCmd(step.cbw, step.count) != Passed
    ensures !IsBotReset(step)
  {
    assert StepSpec(g, step) == CommandSpec(g, step.cbw, step.count, step.sendOk, step.sectorsOk);
    CommandKeepsInv(g, step.cbw, step.count, step.sendOk, step.sectorsOk);
  }

  lemma SetupStepKeepsInv(g: MscState, step: MscStep)
    requires Inv(g) && step.SetupRequest?
    ensures Inv(StepSpec(g, step))
    ensures StepSpec(g, step).inPhaseError == (g.inPhaseError && !IsBotReset(step))
  {
    assert StepSpec(g, step) == SetupSpec(g, step.s, step.linkSpeed, step.outOk, step.inOk);
    SetupKeepsInv(g, step.s, step.linkSpeed, step.outOk, step.inOk);
  }

  /** The thread's other passes and the link events leave the phase error alone. */
  lemma ThreadStepKeepsInv(g: MscState, step: MscStep)
    requires Inv(g) && !step.ServeCbw? && !step.SetupRequest?
    ensures Inv(StepSpec(g, step)) && StepSpec(g, step).inPhaseError == g.inPhaseError && !IsBotReset(step)
  {
    match step
    case QueueRead(setupOk) =>
      assert StepSpec(g, step) == QueueSpec(g, setupOk);
      QueueKeepsInv(g, setupOk);
    case TakeConfig(inOk, outOk) =>
      assert StepSpec(g, step) == ConfigSpec(g, inOk, outOk);
      ConfigKeepsInv(g, inOk, outOk);
    case CheckLink =>
      assert StepSpec(g, step) == DisconnectSpec(g);
      DisconnectKeepsInv(g);
    case LinkEvent(ev) =>
      assert StepSpec(g, step) == UsbEventSpec(g, ev);
      EventKeepsInv(g, ev);
  }

  lemma QueueKeepsInv(g: MscState, setupOk: bool)
    requires Inv(g)
    ensures Inv(QueueSpec(g, setupOk)) && QueueSpec(g, setupOk).inPhaseError == g.inPhaseError
  {
  }

  lemma DisconnectKeepsInv(g: MscState)
    requires Inv(g)
    ensures Inv(DisconnectSpec(g)) && DisconnectSpec(g).inPhaseError == g.inPhaseError
  {
  }

  lemma EventKeepsInv(g: MscState, ev: UsbEvent)
    requires Inv(g)
    ensures Inv(UsbEventSpec(g, ev)) && UsbEventSpec(g, ev).inPhaseError == g.inPhaseError
  {
  }

  /** The statics after a run of steps; the invariant holds throughout. */
  function Run(g: MscState, steps: seq<MscStep>): (r: MscState)
    requires Inv(g) && forall i :: 0 <= i < |steps| ==> WellFormed(steps[i])
    ensures Inv(r)
    decreases |steps|
  {
    if steps == [] then g
    else
      var next := if StepEnabled(g, steps[0]) then StepSpec(g, steps[0]) else g;
      StepKeepsInv(g, steps[0]);
      Run(next, steps[1..])
  }

  /** The device starts with no configuration, sense DEVICE_RESET and the thread waiting for SET_CONFIGURATION. */
  lemma InitialInv()
    ensures Inv(InitialState) && InitialState.awaitingConfig && InitialState.senseIndex == SENSE_DEVICE_RESET
  {
  }

  /** A class request that is the Bulk-Only Mass Storage Reset. */
  predicate IsBotReset(step: MscStep)
  {
    step.SetupRequest? && RequestType(step.s.bmRequestType) == CLASS_RQT
    && IsMscRequest(step.s) && step.s.bRequest == BOT_RESET_REQ
  }

  /**
   * Once in a phase error, the device stays in it, with no read queued and
   * so no CBW received, until the host sends a Bulk-Only Mass Storage Reset.
   */
  lemma {:induction false} PhaseErrorHoldsUntilBotReset(g: MscState, steps: seq<MscStep>)
    requires Inv(g) && g.inPhaseError && forall i :: 0 <= i < |steps| ==> WellFormed(steps[i])
    requires forall i :: 0 <= i < |steps| ==> !IsBotReset(steps[i])
    ensures Run(g, steps).inPhaseError && !Run(g, steps).readQueued
    ensures forall cbw, count, sendOk, sectorsOk :: !StepEnabled(Run(g, steps), ServeCbw(cbw, count, sendOk, sectorsOk))
    decreases |steps|
  {
    if steps != [] {
      var next := if StepEnabled(g, steps[0]) then StepSpec(g, steps[0]) else g;
      StepKeepsInv(g, steps[0]);
      assert Run(g, steps) == Run(next, steps[1..]);
      PhaseErrorHoldsUntilBotReset(next, steps[1..]);
    }
  }

  /** The CSW of a CBW that passed the check carries that CBW's tag back to the host. */
  lemma CswEchoesTag(tag: seq<byte>, cbw: seq<byte>, count: nat, residue: u32, status: Status)
    requires |tag| == 4 && |cbw| == CBW_MAX_COUNT && CheckScsiCmd(cbw, count) == Passed
    ensures CswBytes(CommandTag(tag, cbw, count), residue, status)[4..8] == cbw[4..8]
    ensures CswBytes(CommandTag(tag, cbw, count), residue, status)[12] == StatusCode(status)
  {
    CswBytesFields(cbw[4..8], residue, status);
  }

  /** One more received sector: the store so far with that sector of `data` laid over sector lba + k. */
  /** A store that held the first k sectors and then took sector k in place, when it arrived, holds the sectors that arrived. */
  lemma WriteSectorLands(mem: seq<byte>, lba: nat, size: nat, data: seq<byte>, k: nat, w: seq<byte>, w': seq<byte>, ok: bool)
    requires (lba + k + 1) * size <= |mem| && (k + 1) * size <= |data|
    requires (lba + k) * size + size == (lba + k + 1) * size && k * size + size == (k + 1) * size
    requires w == WriteSectors(mem, lba, size, data, k)
    requires ok ==> w' == w[..(lba + k) * size] + data[k * size .. k * size + size] + w[(lba + k) * size + size..]
    requires !ok ==> w' == w
    ensures w' == WriteSectors(mem, lba, size, data, if ok then k + 1 else k)
  {
    if ok {
      WriteSectorsStep(mem, lba, size, data, k);
    }
  }

  lemma {:induction false} WriteSectorsStep(mem: seq<byte>, lba: nat, size: nat, data: seq<byte>, k: nat)
    requires (lba + k + 1) * size <= |mem| && (k + 1) * size <= |data|
    ensures (lba + k) * size + size == (lba + k + 1) * size && k * size + size == (k + 1) * size
    ensures WriteSectors(mem, lba, size, data, k + 1)
         == WriteSectors(mem, lba, size, data, k)[..(lba + k) * size]
          + data[k * size .. k * size + size]
          + WriteSectors(mem, lba, size, data, k)[(lba + k) * size + size..]
  {
    var base, done := lba * size, k * size;
    assert (lba + k) * size == base + done;
    assert (lba + k + 1) * size == base + done + size;
    assert (k + 1) * size == done + size;
    var w := WriteSectors(mem, lba, size, data, k);
    assert w == mem[..base] + data[..done] + mem[base + done..];
    assert w[..base + done] == mem[..base] + data[..done];
    assert w[base + done + size..] == mem[base + done + size..];
    assert data[..done + size] == data[..done] + data[done .. done + size];
  }

  // ---------------------------------------------------------------------------
  // The device

  class MscDevice {
    /** The file statics and the thread's long-lived locals. */
    var st: MscState

    /** glMscStorageDeviceMemory, the RAM disk. */
    const storage: array<byte>
    /** glMscOutBuffer, the 18-byte response buffer. */
    const outBuffer: array<byte>
    /** glMscCswStatus, the 13-byte CSW. */
    const csw: array<byte>

    /** SDK calls and host transfers so far. */
    ghost var log: seq<Action>

    ghost predicate Valid()
      reads this, csw
    {
      && storage != outBuffer && storage != csw && outBuffer != csw
      && storage.Length == CARD_CAPACITY && outBuffer.Length == RESPONSE_MAX_COUNT
      && csw.Length == CSW_MAX_COUNT && csw[..4] == CSW_SIGNATURE
      && DiskShaped(st.sectorSize, st.maxSectors)
      && st.lastStatus != MscReset
    }

    /** The statics' initialisers and the thread's memset of the store. */
    constructor ()
      ensures Valid() && st == InitialState && log == []
      ensures storage[..] == seq(CARD_CAPACITY, _ => 0) && csw[..] == CSW_SIGNATURE + seq(9, _ => 0)
    {
      st := InitialState;
      storage := new byte[CARD_CAPACITY](_ => 0);
      outBuffer := new byte[RESPONSE_MAX_COUNT](_ => 0);
      csw := new byte[CSW_MAX_COUNT]['U' as int, 'S' as int, 'B' as int, 'S' as int, 0, 0, 0, 0, 0, 0, 0, 0, 0];
      log := [];
      new;
      assert csw[..4] == CSW_SIGNATURE;
    }

    /**
     * CyFxMscParseScsiCmd: the CBW's length and, when data is to move, its
     * direction and the residue are latched; a direction the command does not
     * allow fails it; otherwise the command's case runs and leaves the
     * residue and the sense index. `sendOk` is the result of the command's
     * single send, `sectorsOk` the number of sector transfers that succeed,
     * `incoming` the host's data for WRITE(10).
     */
    method ParseScsiCmd(cbw: seq<byte>, sendOk: bool, sectorsOk: nat, incoming: seq<byte>) returns (status: Status)
      requires Valid() && |cbw| == CBW_MAX_COUNT && |incoming| == DataTxLength(cbw)
      modifies this, outBuffer, storage
      ensures Valid()
      ensures status == Execute(old(st), cbw, sendOk, sectorsOk).status
      ensures st == Parsed(old(st), cbw, Execute(old(st), cbw, sendOk, sectorsOk))
      ensures log == old(log) + DataPhase(old(st), old(storage[..]), cbw, sendOk, sectorsOk)
      ensures storage[..] == StorageAfter(old(st), old(storage[..]), cbw, sectorsOk, incoming)
      ensures outBuffer[..] == ResponseBuffer(old(st), old(outBuffer[..]), cbw)
    {
      var dataTxLength := DataTxLength(cbw);
      var scsiCmd := Opcode(cbw);
      if dataTxLength != 0 && CheckCmdDirection(scsiCmd, Direction(cbw)) != Passed {
        status := Failed;
        st := Parsed(st, cbw, Outcome(Failed, dataTxLength, st.senseIndex));
        return;
      }
      var o: Outcome;
      match CommandOf(scsiCmd) {
        case NoDataCmd =>
          o := NoDataOutcome(dataTxLength);
        case InquiryCmd =>
          o := InquiryCommand(dataTxLength, InquiryAllocation(cbw), sendOk);
        case CapacityCmd =>
          o := CapacityCommand(scsiCmd, dataTxLength, sendOk);
        case RequestSenseCmd =>
          o := RequestSenseCommand(dataTxLength, sendOk);
        case ModeSenseCmd =>
          o := ModeSenseCommand(dataTxLength, sendOk);
        case ReadCmd =>
          o := ReadCommand(SectorRequestOf(cbw), sectorsOk);
        case WriteCmd =>
          o := WriteCommand(SectorRequestOf(cbw), sectorsOk, incoming);
        case VerifyCmd =>
          o := Outcome(Passed, 0, SENSE_OK);
        case UnknownCmd =>
          o := Outcome(Failed, dataTxLength, SENSE_INVALID_OP_CODE);
      }
      st := Parsed(st, cbw, o);
      status := o.status;
    }

    /** INQUIRY: when both lengths are non-zero, allocLength bytes go out from the start of the inquiry table. */
    method InquiryCommand(dataTxLength: u32, allocLength: u16, sendOk: bool) returns (o: Outcome)
      modifies this`log
      ensures o == InquiryOutcome(dataTxLength, allocLength, Sent(st, sendOk))
      ensures log == old(log) + InquiryPhase(dataTxLength, allocLength, Sent(st, sendOk))
    {
      var residue := dataTxLength;
      var status := Passed;
      if dataTxLength != 0 && allocLength != 0 {
        residue := if dataTxLength < allocLength then allocLength - dataTxLength else dataTxLength - allocLength;
        if Sent(st, sendOk) {
          log := log + [InquiryToHost(InquiryData[..Min(allocLength, |InquiryData|)], allocLength)];
        } else {
          status := Failed;
        }
      }
      o := Outcome(status, residue, SENSE_OK);
    }

    /** READ CAPACITY and READ FORMAT CAPACITIES. */
    method CapacityCommand(scsiCmd: byte, dataTxLength: u32, sendOk: bool) returns (o: Outcome)
      requires outBuffer.Length == RESPONSE_MAX_COUNT && DiskShaped(st.sectorSize, st.maxSectors)
      requires scsiCmd == READ_CAPACITY || scsiCmd == READ_FORMAT_CAPACITY
      modifies this`log, outBuffer
      ensures o == CapacityOutcome(scsiCmd, dataTxLength, Sent(st, sendOk))
      ensures log == old(log) + CapacityPhase(st, scsiCmd, dataTxLength, Sent(st, sendOk))
      ensures outBuffer[..] == CapacityBuffer(st, scsiCmd, dataTxLength, old(outBuffer[..]))
    {
      if dataTxLength == 0 {
        o := Outcome(Failed, dataTxLength, SENSE_INVALID_FIELD_IN_CBW);
        return;
      }
      var numBytes := FillCapacity(scsiCmd, st.maxSectors, st.sectorSize);
      var residue := if dataTxLength < numBytes then numBytes - dataTxLength else dataTxLength - numBytes;
      var status := Passed;
      if Sent(st, sendOk) {
        log := log + [ToHost(outBuffer[..numBytes])];
      } else {
        status := Failed;
      }
      o := Outcome(status, residue, SENSE_OK);
    }

    /** CyU3PMemSet of the first `n` bytes of the response buffer. */
    method ClearResponse(n: nat)
      requires outBuffer.Length == RESPONSE_MAX_COUNT && n <= RESPONSE_MAX_COUNT
      modifies outBuffer
      ensures outBuffer[..] == seq(n, _ => 0) + old(outBuffer[n..])
    {
      forall i | 0 <= i < n {
        outBuffer[i] := 0;
      }
      assert outBuffer[..] == seq(n, _ => 0) + old(outBuffer[n..]) by {
        forall i | 0 <= i < RESPONSE_MAX_COUNT
          ensures outBuffer[i] == (seq(n, _ => 0) + old(outBuffer[n..]))[i]
        {
        }
      }
    }

    /** The eight bytes of capacity and sector size, written at `idx`. */
    method PutCapacity(idx: nat, op: byte, maxSectors: u32, sectorSize: u16)
      requires outBuffer.Length == RESPONSE_MAX_COUNT && idx + 8 <= RESPONSE_MAX_COUNT
      modifies outBuffer
      ensures outBuffer[..] == old(outBuffer[..idx]) +
        [ByteOf(maxSectors, 3), ByteOf(maxSectors, 2), ByteOf(maxSectors, 1), ByteOf(maxSectors, 0),
         if op == READ_FORMAT_CAPACITY then 0x02 else 0x00, 0x00, HiByte(sectorSize), LoByte(sectorSize)]
        + old(outBuffer[idx + 8..])
    {
      outBuffer[0 + idx] := ByteOf(maxSectors, 3);
      outBuffer[1 + idx] := ByteOf(maxSectors, 2);
      outBuffer[2 + idx] := ByteOf(maxSectors, 1);
      outBuffer[3 + idx] := ByteOf(maxSectors, 0);
      outBuffer[4 + idx] := if op == READ_FORMAT_CAPACITY then 0x02 else 0x00;
      outBuffer[5 + idx] := 0x00;
      outBuffer[6 + idx] := HiByte(sectorSize);
      outBuffer[7 + idx] := LoByte(sectorSize);
    }

    /** The capacity reply, written into the cleared first 12 bytes of the response buffer. */
    method FillCapacity(op: byte, maxSectors: u32, sectorSize: u16) returns (numBytes: nat)
      requires outBuffer.Length == RESPONSE_MAX_COUNT && (op == READ_CAPACITY || op == READ_FORMAT_CAPACITY)
      modifies outBuffer
      ensures numBytes == if op == READ_CAPACITY then 8 else 12
      ensures outBuffer[..] == CapacityReply(op, maxSectors, sectorSize)
                               + (if op == READ_CAPACITY then [0, 0, 0, 0] else []) + old(outBuffer[12..])
      ensures outBuffer[..numBytes] == CapacityReply(op, maxSectors, sectorSize)
    {
      ClearResponse(12);
      if op == READ_FORMAT_CAPACITY {
        PutFormatCapacity(maxSectors, sectorSize);
        numBytes := 12;
      } else {
        ghost var rest := old(outBuffer[12..]);
        assert outBuffer[8..12] == [0, 0, 0, 0] && outBuffer[12..] == rest;
        PutCapacity(0, op, maxSectors, sectorSize);
        assert outBuffer[..] == CapacityData(maxSectors, sectorSize) + [0, 0, 0, 0] + rest;
        numBytes := 8;
      }
    }

    /** READ FORMAT CAPACITIES over a response buffer whose first 12 bytes are clear: the list header, then the descriptor. */
    method PutFormatCapacity(maxSectors: u32, sectorSize: u16)
      requires outBuffer.Length == RESPONSE_MAX_COUNT
      requires forall i :: 0 <= i < 4 ==> outBuffer[i] == 0
      modifies outBuffer
      ensures outBuffer[..] == FormatCapacityData(maxSectors, sectorSize) + old(outBuffer[12..])
    {
      ghost var rest := old(outBuffer[12..]);
      outBuffer[3] := 0x08;
      assert outBuffer[..4] == [0x00, 0x00, 0x00, 0x08] && outBuffer[12..] == rest;
      PutCapacity(4, READ_FORMAT_CAPACITY, maxSectors, sectorSize);
    }

    /** REQUEST SENSE: the current row of the sense table in fixed format, at most 18 bytes of it. */
    method RequestSenseCommand(dataTxLength: u32, sendOk: bool) returns (o: Outcome)
      requires outBuffer.Length == RESPONSE_MAX_COUNT
      modifies this`log, outBuffer
      ensures o == SenseOutcome(dataTxLength, Sent(st, sendOk))
      ensures log == old(log) + SensePhase(st.senseIndex, dataTxLength, Sent(st, sendOk))
      ensures outBuffer[..] == SenseBuffer(st.senseIndex, dataTxLength, old(outBuffer[..]))
    {
      if dataTxLength == 0 {
        o := Outcome(Failed, dataTxLength, SENSE_INVALID_FIELD_IN_CBW);
        return;
      }
      FillSense(st.senseIndex);
      var temp := if dataTxLength >= RESPONSE_MAX_COUNT then RESPONSE_MAX_COUNT else dataTxLength;
      var status := Passed;
      if Sent(st, sendOk) {
        log := log + [ToHost(outBuffer[..temp])];
      } else {
        status := Failed;
      }
      var residue := dataTxLength - temp;
      if residue > RESPONSE_MAX_COUNT {
        status := Failed;
      }
      o := Outcome(status, residue, SENSE_OK);
    }

    /** The sense data of row `i`, written over the cleared response buffer. */
    method FillSense(i: SenseIndex)
      requires outBuffer.Length == RESPONSE_MAX_COUNT
      modifies outBuffer
      ensures outBuffer[..] == SenseData(i)
    {
      ClearResponse(RESPONSE_MAX_COUNT);
      outBuffer[0] := 0x70;
      outBuffer[1] := 0x00;
      outBuffer[2] := ReqSenseCode[i].0;
      outBuffer[7] := 0x0A;
      outBuffer[12] := ReqSenseCode[i].1;
      outBuffer[13] := ReqSenseCode[i].2;
    }

    /** MODE SENSE(6), FORMAT UNIT and START STOP UNIT: the 4-byte mode parameter header. */
    method ModeSenseCommand(dataTxLength: u32, sendOk: bool) returns (o: Outcome)
      requires outBuffer.Length == RESPONSE_MAX_COUNT
      modifies this`log, outBuffer
      ensures o == ModeSenseOutcome(dataTxLength, Sent(st, sendOk))
      ensures log == old(log) + ModeSensePhase(dataTxLength, Sent(st, sendOk))
      ensures outBuffer[..] == ModeSenseBuffer(dataTxLength, old(outBuffer[..]))
    {
      if dataTxLength == 0 {
        o := Outcome(Failed, 0, SENSE_INVALID_FIELD_IN_CBW);
        return;
      }
      outBuffer[0] := 0x03;
      outBuffer[1] := 0x00;
      outBuffer[2] := 0x00;
      outBuffer[3] := 0x00;
      assert outBuffer[..4] == ModeSenseData;
      var residue := if dataTxLength < 4 then 4 - dataTxLength else dataTxLength - 4;
      var status := Passed;
      if Sent(st, sendOk) {
        log := log + [ToHost(outBuffer[..4])];
      } else {
        status := Failed;
      }
      o := Outcome(status, residue, SENSE_OK);
    }

    /** READ(10): the checks, then the sectors one by one until one send fails. */
    method ReadCommand(r: SectorRequest, sectorsOk: nat) returns (o: Outcome)
      requires Valid() && r.len < 0x1_0000_0000
      modifies this`log
      ensures o == SectorOutcome(st, r, sectorsOk)
      ensures log == old(log) + ReadPhase(st, storage[..], r, sectorsOk)
    {
      if r.len == 0 && r.count == 0 {
        o := Outcome(Passed, 0, SENSE_OK);
        return;
      }
      if r.lba > st.maxSectors || r.lba + r.count > st.maxSectors || r.count * st.sectorSize != r.len {
        o := Outcome(Failed, r.len, SENSE_INVALID_FIELD_IN_CBW);
        return;
      }
      var moved, failed := ReadTransfer(r, sectorsOk);
      o := Outcome(if failed then Failed else Passed, r.len - moved * st.sectorSize, SENSE_OK);
    }

    /** CyFxMscSendUSBData of one sector of the store: it fails at once while the link is down. */
    method SendSector(offset: nat, size: nat, dmaOk: bool) returns (sent: bool)
      requires storage.Length == CARD_CAPACITY && offset + size <= CARD_CAPACITY
      modifies this`log
      ensures sent == Sent(st, dmaOk)
      ensures log == old(log) + if sent then [ToHost(storage[offset .. offset + size])] else []
    {
      sent := Sent(st, dmaOk);
      if sent {
        log := log + [ToHost(storage[offset .. offset + size])];
      }
    }

    /** One pass of the READ(10) loop: sector `mscLba`, the next of the request, goes out or the send fails. */
    method ReadNext(r: SectorRequest, mscLba: nat, moved: nat, dmaOk: bool, ghost before: seq<Action>) returns (ok: bool)
      requires storage.Length == CARD_CAPACITY && (r.lba + r.count) * st.sectorSize <= CARD_CAPACITY
      requires r.count * st.sectorSize == r.len && moved < r.count && mscLba == r.lba + moved
      requires log == before + ReadSectors(storage[..], r.lba, st.sectorSize, moved)
      modifies this`log
      ensures ok == Sent(st, dmaOk)
      ensures moved * st.sectorSize + st.sectorSize == (moved + 1) * st.sectorSize <= r.len
      ensures (r.lba + moved + 1) * st.sectorSize <= CARD_CAPACITY
      ensures log == before + ReadSectors(storage[..], r.lba, st.sectorSize, if ok then moved + 1 else moved)
    {
      SectorStep(r.lba, r.count, moved, st.sectorSize, r.len);
      ok := SendSector(mscLba * st.sectorSize, st.sectorSize, dmaOk);
    }

    /**
     * The send loop of READ(10): `mscLba` and `mscSector` walk the request,
     * `dataTxLength` counts down; the first failed send ends it.
     */
    method ReadLoop(r: SectorRequest, sectorsOk: nat) returns (moved: nat, failed: bool)
      requires storage.Length == CARD_CAPACITY && st.sectorSize > 0 && r.count > 0
      requires (r.lba + r.count) * st.sectorSize <= CARD_CAPACITY && r.count * st.sectorSize == r.len
      modifies this`log
      ensures moved <= r.count && (r.lba + moved) * st.sectorSize <= CARD_CAPACITY
      ensures log == old(log) + ReadSectors(storage[..], r.lba, st.sectorSize, moved)
      ensures failed ==> moved < r.count && !Sent(st, moved < sectorsOk)
      ensures !failed ==> moved == r.count
      ensures moved <= Moved(st, r, sectorsOk)
    {
      var mscLba := r.lba;
      var mscSector := r.count;
      var dataTxLength: int := r.len;
      moved, failed := 0, false;
      while mscSector > 0 && dataTxLength != 0
        invariant moved <= r.count && mscLba == r.lba + moved && mscSector == r.count - moved
        invariant (r.lba + moved) * st.sectorSize <= CARD_CAPACITY
        invariant dataTxLength + moved * st.sectorSize == r.len
        invariant log == old(log) + ReadSectors(storage[..], r.lba, st.sectorSize, moved)
        invariant moved <= Moved(st, r, sectorsOk)
        decreases mscSector
      {
        var ok := ReadNext(r, mscLba, moved, moved < sectorsOk, old(log));
        if !ok {
          failed := true;
          break;
        }
        mscLba := mscLba + 1;
        mscSector := mscSector - 1;
        dataTxLength := dataTxLength - st.sectorSize;
        moved := moved + 1;
      }
      if !failed && moved < r.count {
        SectorStep(r.lba, r.count, moved, st.sectorSize, r.len);
      }
    }

    /** The sectors READ(10) sends: as many as succeed, in order. */
    method ReadTransfer(r: SectorRequest, sectorsOk: nat) returns (moved: nat, failed: bool)
      requires Valid() && SectorsAccepted(st, r)
      modifies this`log
      ensures moved == Moved(st, r, sectorsOk) && failed == SectorTransferFailed(st, r, sectorsOk)
      ensures moved * st.sectorSize <= r.len && (r.lba + moved) * st.sectorSize <= CARD_CAPACITY
      ensures log == old(log) + ReadSectors(storage[..], r.lba, st.sectorSize, moved)
    {
      AcceptedHasSectors(st, r);
      SectorRangeInStore(r.lba, r.count, Disk(st.sectorSize, st.maxSectors));
      moved, failed := ReadLoop(r, sectorsOk);
      SectorArithmetic(r.lba, r.count, moved, st.sectorSize, st.maxSectors, r.len);
    }

    /** WRITE(10): the checks, then the sectors one by one until one receive fails. */
    method WriteCommand(r: SectorRequest, sectorsOk: nat, incoming: seq<byte>) returns (o: Outcome)
      requires Valid() && r.len < 0x1_0000_0000 && |incoming| == r.len
      modifies storage
      ensures o == SectorOutcome(st, r, sectorsOk)
      ensures storage[..] == WritePhase(st, old(storage[..]), r, sectorsOk, incoming)
    {
      if r.len == 0 && r.count == 0 {
        o := Outcome(Passed, 0, SENSE_OK);
        return;
      }
      if r.lba > st.maxSectors || r.lba + r.count > st.maxSectors || r.count * st.sectorSize != r.len {
        o := Outcome(Failed, r.len, SENSE_INVALID_FIELD_IN_CBW);
        return;
      }
      var moved, failed := WriteTransfer(r, sectorsOk, incoming);
      o := Outcome(if failed then Failed else Passed, r.len - moved * st.sectorSize, SENSE_OK);
    }

    /** CyFxMscReceiveUSBData into one sector of the store: it fails at once while the link is down. */
    method ReceiveSector(offset: nat, chunk: seq<byte>, dmaOk: bool) returns (received: bool)
      requires storage.Length == CARD_CAPACITY && offset + |chunk| <= CARD_CAPACITY
      modifies storage
      ensures received == Sent(st, dmaOk)
      ensures storage[..] == if received then old(storage[..offset]) + chunk + old(storage[offset + |chunk|..])
                             else old(storage[..])
    {
      received := Sent(st, dmaOk);
      if received {
        forall i | offset <= i < offset + |chunk| {
          storage[i] := chunk[i - offset];
        }
        assert storage[..] == old(storage[..offset]) + chunk + old(storage[offset + |chunk|..]);
      }
    }

    /** One pass of the WRITE(10) loop: the host's next sector lands at sector `mscLba`, or the receive fails. */
    method WriteNext(r: SectorRequest, mscLba: nat, moved: nat, dmaOk: bool, incoming: seq<byte>, ghost mem: seq<byte>)
      returns (ok: bool)
      requires storage.Length == CARD_CAPACITY && |mem| == CARD_CAPACITY && |incoming| == r.len
      requires (r.lba + r.count) * st.sectorSize <= CARD_CAPACITY
      requires r.count * st.sectorSize == r.len && moved < r.count && mscLba == r.lba + moved
      requires storage[..] == WriteSectors(mem, r.lba, st.sectorSize, incoming, moved)
      modifies storage
      ensures ok == Sent(st, dmaOk)
      ensures moved * st.sectorSize + st.sectorSize == (moved + 1) * st.sectorSize <= r.len
      ensures (r.lba + moved + 1) * st.sectorSize <= CARD_CAPACITY
      ensures storage[..] == WriteSectors(mem, r.lba, st.sectorSize, incoming, if ok then moved + 1 else moved)
    {
      var size := st.sectorSize;
      SectorStep(r.lba, r.count, moved, size, r.len);
      assert mscLba * size == (r.lba + moved) * size;
      ok := ReceiveSector(mscLba * size, incoming[moved * size .. moved * size + size], dmaOk);
      WriteSectorLands(mem, r.lba, size, incoming, moved, old(storage[..]), storage[..], ok);
    }

    /** The receive loop of WRITE(10): each received sector lands at `mscLba * sectorSize` in the store. */
    method WriteLoop(r: SectorRequest, sectorsOk: nat, incoming: seq<byte>) returns (moved: nat, failed: bool)
      requires storage.Length == CARD_CAPACITY && st.sectorSize > 0 && r.count > 0 && |incoming| == r.len
      requires (r.lba + r.count) * st.sectorSize <= CARD_CAPACITY && r.count * st.sectorSize == r.len
      modifies storage
      ensures moved <= r.count && (r.lba + moved) * st.sectorSize <= CARD_CAPACITY
      ensures storage[..] == WriteSectors(old(storage[..]), r.lba, st.sectorSize, incoming, moved)
      ensures failed ==> moved < r.count && !Sent(st, moved < sectorsOk)
      ensures !failed ==> moved == r.count
      ensures moved <= Moved(st, r, sectorsOk)
    {
      var mscLba := r.lba;
      var mscSector := r.count;
      var dataTxLength: int := r.len;
      moved, failed := 0, false;
      assert storage[..] == WriteSectors(old(storage[..]), r.lba, st.sectorSize, incoming, 0);
      while mscSector > 0 && dataTxLength != 0
        invariant moved <= r.count && mscLba == r.lba + moved && mscSector == r.count - moved
        invariant (r.lba + moved) * st.sectorSize <= CARD_CAPACITY
        invariant dataTxLength + moved * st.sectorSize == r.len
        invariant storage[..] == WriteSectors(old(storage[..]), r.lba, st.sectorSize, incoming, moved)
        invariant moved <= Moved(st, r, sectorsOk)
        decreases mscSector
      {
        var ok := WriteNext(r, mscLba, moved, moved < sectorsOk, incoming, old(storage[..]));
        if !ok {
          failed := true;
          break;
        }
        mscLba := mscLba + 1;
        mscSector := mscSector - 1;
        dataTxLength := dataTxLength - st.sectorSize;
        moved := moved + 1;
      }
      if !failed && moved < r.count {
        SectorStep(r.lba, r.count, moved, st.sectorSize, r.len);
      }
    }

    /** The sectors WRITE(10) receives: as many as succeed, in order. */
    method WriteTransfer(r: SectorRequest, sectorsOk: nat, incoming: seq<byte>) returns (moved: nat, failed: bool)
      requires Valid() && SectorsAccepted(st, r) && |incoming| == r.len
      modifies storage
      ensures moved == Moved(st, r, sectorsOk) && failed == SectorTransferFailed(st, r, sectorsOk)
      ensures moved * st.sectorSize <= r.len && (r.lba + moved) * st.sectorSize <= CARD_CAPACITY
      ensures storage[..] == WriteSectors(old(storage[..]), r.lba, st.sectorSize, incoming, moved)
    {
      AcceptedHasSectors(st, r);
      SectorRangeInStore(r.lba, r.count, Disk(st.sectorSize, st.maxSectors));
      moved, failed := WriteLoop(r, sectorsOk, incoming);
      SectorArithmetic(r.lba, r.count, moved, st.sectorSize, st.maxSectors, r.len);
    }

    /**
     * CyFxMscSendCsw: the residue goes little-endian into bytes 8..11 and
     * `status & 3` into byte 12; a phase error latches glInPhaseError and
     * stalls both bulk endpoints, a failed data command stalls the endpoint
     * of its direction; then the 13 bytes go out, and a failed send turns the
     * result into MSC_RESET.
     */
    method SendCsw(status: Status, cswOk: bool) returns (r: Status)
      requires Valid()
      modifies this, csw
      ensures Valid()
      ensures st == CswSent(old(st), status) && r == CswReturn(old(st), status, cswOk)
      ensures csw[..] == CswBytes(old(csw[4..8]), old(st).cswResidue, status)
      ensures log == old(log) + CswActions(old(st), old(csw[4..8]), status, cswOk)
    {
      ghost var tag := csw[4..8];
      FrameCsw(st.cswResidue, status);
      assert csw[..] == CswBytes(tag, st.cswResidue, status);
      HandleCswStatus(status);
      r := status;
      if Sent(st, cswOk) {
        log := log + [ToHost(csw[..])];
      } else {
        r := MscReset;
      }
    }

    /** The residue and the status written into CSW bytes 8..12; the signature and the tag stay. */
    method FrameCsw(residue: u32, status: Status)
      requires csw.Length == CSW_MAX_COUNT
      modifies csw
      ensures csw[..] == old(csw[..8]) + [ByteOf(residue, 0), ByteOf(residue, 1), ByteOf(residue, 2), ByteOf(residue, 3),
                                          StatusCode(status)]
    {
      csw[11] := ByteOf(residue, 3);
      csw[10] := ByteOf(residue, 2);
      csw[9] := ByteOf(residue, 1);
      csw[8] := ByteOf(residue, 0);
      csw[12] := StatusCode(status);
    }

    /** The phase-error latch and the stalls CyFxMscSendCsw does before sending. */
    method HandleCswStatus(status: Status)
      modifies this`st, this`log
      ensures st == CswSent(old(st), status)
      ensures log == old(log) + CswStallActions(old(st), status)
    {
      if status == PhaseError {
        st := st.(inPhaseError := true);
        log := log + PhaseErrorActions;
      } else if status == Failed && st.dataTxLength != 0 {
        if st.cmdDirection == 0 {
          log := log + [Stall(EP_BULK_OUT)];
        } else {
          log := log + FailedInActions;
        }
      }
    }

    /**
     * A CBW arrived in glMscInBuffer (`count` bytes): it is checked; a valid
     * one has its tag copied into CSW bytes 4..7 and is parsed; the CSW goes
     * out with the status, whose MSC_RESET result the thread drops; the
     * status stays in `cswReturnStatus` and the read is to be queued again.
     */
    method CommandReceived(cbw: seq<byte>, count: nat, sendOk: bool, sectorsOk: nat, incoming: seq<byte>, cswOk: bool)
      requires Valid() && |cbw| == CBW_MAX_COUNT && |incoming| == DataTxLength(cbw)
      modifies this, outBuffer, storage, csw
      ensures Valid()
      ensures st == CommandSpec(old(st), cbw, count, sendOk, sectorsOk)
      ensures log == old(log) + CommandActions(old(st), old(storage[..]), old(csw[4..8]), cbw, count, sendOk, sectorsOk, cswOk)
      ensures storage[..] == CommandStorage(old(st), old(storage[..]), cbw, count, sectorsOk, incoming)
      ensures csw[..] == CswBytes(CommandTag(old(csw[4..8]), cbw, count),
                                  CommandParsed(old(st), cbw, count, sendOk, sectorsOk).cswResidue,
                                  CommandStatus(old(st), cbw, count, sendOk, sectorsOk))
      ensures outBuffer[..] == if CheckScsiCmd(cbw, count) == Passed then ResponseBuffer(old(st), old(outBuffer[..]), cbw)
                               else old(outBuffer[..])
    {
      ghost var log0 := log;
      Wake();
      if CheckScsiCmd(cbw, count) == Passed {
        ValidCommandForms(st, storage[..], csw[4..8], cbw, count, sendOk, sectorsOk, incoming, cswOk);
        ValidCommand(cbw, sendOk, sectorsOk, incoming, cswOk);
        var o := Execute(old(st), cbw, sendOk, sectorsOk);
        AppendAssoc(log0, WakeActions(old(st)),
                    DataPhase(old(st), old(storage[..]), cbw, sendOk, sectorsOk) + CswActions(Parsed(old(st), cbw, o), cbw[4..8], o.status, cswOk));
      } else {
        InvalidCommandForms(st, storage[..], csw[4..8], cbw, count, sendOk, sectorsOk, incoming, cswOk);
        InvalidCommand(cswOk);
        AppendAssoc(log0, WakeActions(old(st)), CswActions(old(st), old(csw[4..8]), PhaseError, cswOk));
      }
    }

    /** The CBW's arrival: LPM disabled and, at super speed, the link moved back to U0. */
    method Wake()
      modifies this`log
      ensures log == old(log) + WakeActions(st)
    {
      log := log + [LpmDisable];
      if st.usbSpeed == SuperSpeed {
        log := log + [LinkToU0];
      }
    }

    /** A CBW that failed the check: a phase-error CSW, with the tag left from before. */
    method InvalidCommand(cswOk: bool)
      requires Valid()
      modifies this, csw
      ensures Valid()
      ensures st == CswSent(old(st), PhaseError).(lastStatus := PhaseError, readQueued := false)
      ensures log == old(log) + CswActions(old(st), old(csw[4..8]), PhaseError, cswOk)
      ensures csw[..] == CswBytes(old(csw[4..8]), old(st).cswResidue, PhaseError)
    {
      var dropped := SendCsw(PhaseError, cswOk);
      st := st.(lastStatus := PhaseError, readQueued := false);
    }

    /** A CBW that passed the check: the tag copy, the parse and the CSW. */
    method ValidCommand(cbw: seq<byte>, sendOk: bool, sectorsOk: nat, incoming: seq<byte>, cswOk: bool)
      requires Valid() && |cbw| == CBW_MAX_COUNT && |incoming| == DataTxLength(cbw)
      modifies this, outBuffer, storage, csw
      ensures Valid()
      ensures var o := Execute(old(st), cbw, sendOk, sectorsOk);
        st == CswSent(Parsed(old(st), cbw, o), o.status).(lastStatus := o.status, readQueued := false)
      ensures var o := Execute(old(st), cbw, sendOk, sectorsOk);
        log == old(log) + (DataPhase(old(st), old(storage[..]), cbw, sendOk, sectorsOk)
                           + CswActions(Parsed(old(st), cbw, o), cbw[4..8], o.status, cswOk))
      ensures storage[..] == StorageAfter(old(st), old(storage[..]), cbw, sectorsOk, incoming)
      ensures var o := Execute(old(st), cbw, sendOk, sectorsOk);
        csw[..] == CswBytes(cbw[4..8], Parsed(old(st), cbw, o).cswResidue, o.status)
      ensures outBuffer[..] == ResponseBuffer(old(st), old(outBuffer[..]), cbw)
    {
      csw[4], csw[5], csw[6], csw[7] := cbw[4], cbw[5], cbw[6], cbw[7];
      assert csw[4..8] == cbw[4..8];
      ParseNeverResets(st, cbw, sendOk, sectorsOk);
      var status := ParseScsiCmd(cbw, sendOk, sectorsOk, incoming);
      var dropped := SendCsw(status, cswOk);
      st := st.(lastStatus := status, readQueued := false);
      AppendAssoc(old(log), DataPhase(old(st), old(storage[..]), cbw, sendOk, sectorsOk),
                  CswActions(Parsed(old(st), cbw, Execute(old(st), cbw, sendOk, sectorsOk)), cbw[4..8], status, cswOk));
    }

    /**
     * The head of an inner-loop pass: the read is dropped during a phase
     * error, and otherwise queued when it is not, after which the link may
     * enter U1/U2 (LPM enabled); a failed set-up runs the reset branch.
     */
    method QueuePass(setupOk: bool)
      requires Valid()
      modifies this`st, this`log
      ensures Valid()
      ensures st == QueueSpec(old(st), setupOk) && log == old(log) + QueueActions(old(st), setupOk)
    {
      if st.inPhaseError {
        st := st.(readQueued := false);
      } else if !st.readQueued {
        if setupOk {
          log := log + [RecvQueued, LpmEnable];
          st := st.(readQueued := true);
        } else {
          ResetPass();
        }
      }
    }

    /**
     * mscThread's wait for the SET_CONFIGURATION event: the sector size and
     * count of the link speed, then both DMA channels and the endpoint
     * flushes. No event keeps the thread waiting; no speed, or a channel that
     * cannot be created, parks it in the error handler.
     */
    method ConfigPass(inOk: bool, outOk: bool)
      requires Valid() && st.awaitingConfig && !st.threadHung
      modifies this`st, this`log
      ensures Valid()
      ensures st == ConfigSpec(old(st), inOk, outOk)
      ensures log == old(log) + ConfigActions(old(st), inOk, outOk)
    {
      if !st.setConfigEvent {
        return;
      }
      var size: nat, maxSectors: nat;
      if st.usbSpeed == FullSpeed {
        size, maxSectors := 64, CARD_CAPACITY / 64;
      } else if st.usbSpeed == HighSpeed {
        size, maxSectors := 512, CARD_CAPACITY / 512;
      } else if st.usbSpeed == SuperSpeed {
        size, maxSectors := 1024, CARD_CAPACITY / 1024;
      } else {
        st := st.(setConfigEvent := false, threadHung := true);
        return;
      }
      assert Geometry(st.usbSpeed) == Some(Disk(size, maxSectors));
      log := log + [ChannelCreate(MscIn, size)];
      if !inOk {
        st := st.(setConfigEvent := false, sectorSize := size, maxSectors := maxSectors, readQueued := false,
                  threadHung := true);
        return;
      }
      log := log + [ChannelCreate(MscOut, size)];
      if !outOk {
        st := st.(setConfigEvent := false, sectorSize := size, maxSectors := maxSectors, readQueued := false,
                  threadHung := true);
        return;
      }
      log := log + [FlushEp(EP_BULK_OUT), FlushEp(EP_BULK_IN)];
      st := st.(setConfigEvent := false, sectorSize := size, maxSectors := maxSectors, readQueued := false,
                channelCreated := true, awaitingConfig := false);
    }

    /** The reset branch of the inner loop, taken when queueing the CBW read failed. */
    method ResetPass()
      requires Valid()
      modifies this`st, this`log
      ensures Valid()
      ensures st == ResetSpec(old(st)) && log == old(log) + ResetActions(old(st))
    {
      log := log + [Stall(EP_BULK_OUT), Stall(EP_BULK_IN)];
      if st.channelCreated {
        log := log + [ChannelReset(MscIn), ChannelReset(MscOut)];
      }
      st := st.(senseIndex := SENSE_DEVICE_RESET);
    }

    /** The end of an inner-loop pass: a lost link destroys the channels and leaves the loop. */
    method DisconnectPass()
      requires Valid()
      modifies this`st, this`log
      ensures Valid()
      ensures st == DisconnectSpec(old(st)) && log == old(log) + DisconnectActions(old(st))
    {
      if st.usbSpeed == NotConnected {
        if st.channelCreated {
          log := log + [ChannelDestroy(MscIn), ChannelDestroy(MscOut)];
        }
        st := st.(channelCreated := false, senseIndex := SENSE_DEVICE_RESET, awaitingConfig := true);
      }
    }

    /** CyFxMscApplnUSBEventCB. */
    method UsbEventCallback(ev: UsbEvent)
      requires Valid()
      modifies this`st, this`log
      ensures Valid()
      ensures st == UsbEventSpec(old(st), ev) && log == old(log) + UsbEventActions(old(st), ev)
    {
      if ev == Reset || ev == Suspend || ev == Disconnect || ev == Connect {
        if st.channelCreated {
          log := log + [ChannelAbort(MscIn), ChannelAbort(MscOut)];
        }
        st := st.(senseIndex := SENSE_DEVICE_RESET, usbSpeed := NotConnected, devConfigured := false);
      }
    }

    /**
     * CyFxMscApplnUSBSetupCB: the request is decoded from the two setup words
     * and goes to the standard or the class handler by its type bits; the
     * result says whether the callback handled it. `linkSpeed` is what
     * CyU3PUsbGetSpeed reports, `outOk` and `inOk` whether the OUT and the IN
     * endpoint configurations succeed, `ep0Ok` whether the EP0 send succeeds.
     */
    method SetupCallback(setupdat0: u32, setupdat1: u32, linkSpeed: Speed, outOk: bool, inOk: bool, ep0Ok: bool) returns (handled: bool)
      requires Valid()
      modifies this`st, this`log
      ensures Valid()
      ensures st == SetupSpec(old(st), Decode(setupdat0, setupdat1), linkSpeed, outOk, inOk)
      ensures log == old(log) + SetupActions(old(st), Decode(setupdat0, setupdat1), linkSpeed, outOk, inOk, ep0Ok)
      ensures handled == SetupHandled(old(st), Decode(setupdat0, setupdat1))
    {
      var s := Decode(setupdat0, setupdat1);
      var bType := RequestType(s.bmRequestType);
      if bType == STANDARD_RQT {
        handled := StandardRequest(s, linkSpeed, outOk, inOk);
      } else if bType == CLASS_RQT {
        handled := ClassRequest(s, ep0Ok);
      } else {
        handled := false;
      }
    }

    /** The standard-request half of the setup callback. */
    method StandardRequest(s: Setup, linkSpeed: Speed, outOk: bool, inOk: bool) returns (handled: bool)
      requires Valid()
      modifies this`st, this`log
      ensures Valid()
      ensures st == StandardSpec(old(st), s, linkSpeed, outOk, inOk)
      ensures log == old(log) + StandardActions(old(st), s, linkSpeed, outOk, inOk)
      ensures handled == StandardHandled(old(st), s)
    {
      handled := FunctionSuspend(s);
      if s.bRequest == SC_SET_CONFIGURATION {
        SetConfiguration(linkSpeed, outOk, inOk);
      } else if s.bRequest == SC_CLEAR_FEATURE {
        var cleared := ClearFeature(s.wIndex);
        handled := handled || cleared;
      }
    }

    /** SET_FEATURE or CLEAR_FEATURE(FUNCTION_SUSPEND): acknowledged when configured, stalled otherwise, and claimed. */
    method FunctionSuspend(s: Setup) returns (handled: bool)
      modifies this`log
      ensures handled == IsFunctionSuspend(s)
      ensures log == old(log) + SuspendActions(st, s)
    {
      handled := false;
      if Target(s.bmRequestType) == TARGET_INTF && (s.bRequest == SC_SET_FEATURE || s.bRequest == SC_CLEAR_FEATURE)
         && s.wValue == 0 {
        if st.devConfigured {
          log := log + [Ep0Ack];
        } else {
          log := log + [Ep0Stall];
        }
        handled := true;
      }
    }

    /** SET_CONFIGURATION: the first one configures the endpoints and raises the event; a failed endpoint configuration parks the callback context. */
    method SetConfiguration(linkSpeed: Speed, outOk: bool, inOk: bool)
      requires Valid()
      modifies this`st, this`log
      ensures Valid()
      ensures st == (if old(st).devConfigured then old(st)
                     else old(st).(devConfigured := true, usbSpeed := linkSpeed,
                                   setConfigEvent := old(st).setConfigEvent || (outOk && inOk),
                                   callbackHung := old(st).callbackHung || !(outOk && inOk)))
      ensures log == old(log) + SetConfigActions(old(st), linkSpeed, outOk)
    {
      if !st.devConfigured {
        var packetSize := PacketSize(linkSpeed);
        log := log + [ConfigureEp(EP_BULK_OUT, packetSize)];
        if !outOk {
          st := st.(devConfigured := true, usbSpeed := linkSpeed, callbackHung := true);
          return;
        }
        log := log + [ConfigureEp(EP_BULK_IN, packetSize)];
        if !inOk {
          st := st.(devConfigured := true, usbSpeed := linkSpeed, callbackHung := true);
          return;
        }
        st := st.(devConfigured := true, usbSpeed := linkSpeed, setConfigEvent := true);
      }
    }

    /** CLEAR_FEATURE: acknowledged during a phase error, else the stall of the bulk endpoint in wIndex is cleared. */
    method ClearFeature(wIndex: u16) returns (handled: bool)
      modifies this`log
      ensures handled == (st.inPhaseError || wIndex == EP_BULK_IN || wIndex == EP_BULK_OUT)
      ensures log == old(log) + ClearFeatureActions(st, wIndex)
    {
      if st.inPhaseError {
        log := log + [Ep0Ack];
        return true;
      }
      handled := false;
      if wIndex == EP_BULK_IN {
        log := log + [ClearStall(EP_BULK_IN), Ep0Ack];
        handled := true;
      }
      if wIndex == EP_BULK_OUT {
        log := log + [ClearStall(EP_BULK_OUT), Ep0Ack];
        handled := true;
      }
    }

    /** The class-request half: Get Max LUN and Bulk-Only Mass Storage Reset; everything else stalls EP0. */
    method ClassRequest(s: Setup, ep0Ok: bool) returns (handled: bool)
      requires Valid()
      modifies this`st, this`log
      ensures Valid()
      ensures st == ClassSpec(old(st), s)
      ensures log == old(log) + ClassActions(old(st), s, ep0Ok)
      ensures handled == ClassHandled(s)
    {
      handled := false;
      var apiOk := true;
      if Target(s.bmRequestType) == TARGET_INTF && s.wIndex == MSC_INTF && s.wValue == 0 {
        if s.bRequest == GET_MAX_LUN_REQ {
          if s.wLength == 1 {
            handled := true;
            log := log + [Ep0Send([0])];
            apiOk := ep0Ok;
          }
        } else if s.bRequest == BOT_RESET_REQ {
          handled := true;
          if s.wLength == 0 {
            log := log + [Ep0Ack];
            if st.channelCreated {
              log := log + [ChannelReset(MscOut), ChannelReset(MscIn)];
            }
            log := log + [FlushEp(EP_BULK_OUT), ClearStall(EP_BULK_OUT), FlushEp(EP_BULK_IN), ClearStall(EP_BULK_IN)];
            st := st.(inPhaseError := false, senseIndex := SENSE_DEVICE_RESET);
          } else {
            log := log + [Ep0Stall];
            st := st.(inPhaseError := false);
          }
        }
      }
      if !handled || !apiOk {
        log := log + [Ep0Stall];
      }
    }
  }
}
