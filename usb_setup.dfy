/**
 * The eight-byte SETUP packet of a USB control transfer (section 9.3 of the
 * USB 2.0 specification) as the FX3 delivers it to a setup callback: two
 * 32-bit words, `setupdat0` holding bmRequestType, bRequest and wValue and
 * `setupdat1` holding wIndex and wLength, each little-endian. Every setup
 * callback of the firmware decodes the words with the same masks and shifts.
 */
module UsbSetup {
  import opened Bytes

  datatype Setup = Setup(bmRequestType: byte, bRequest: byte, wValue: u16, wIndex: u16, wLength: u16)

  /** Link speed as reported by the USB block. */
  datatype Speed = NotConnected | FullSpeed | HighSpeed | SuperSpeed

  // bmRequestType type field, bits 6..5 (section 9.3.1 of USB 2.0)
  const TYPE_MASK: byte := 0x60
  const STANDARD_RQT: byte := 0x00
  const CLASS_RQT: byte := 0x20
  const VENDOR_RQT: byte := 0x40
  // the SDK's recipient mask, CY_U3P_USB_TARGET_MASK: only bits 1..0 of the
  // 5-bit recipient field of USB 2.0, which is all the callbacks look at
  const TARGET_MASK: byte := 0x03
  const TARGET_DEVICE: byte := 0x00
  const TARGET_INTF: byte := 0x01
  const TARGET_ENDPT: byte := 0x02

  // standard request codes (table 9-4 of USB 2.0)
  const SC_CLEAR_FEATURE: byte := 0x01
  const SC_SET_FEATURE: byte := 0x03
  const SC_GET_DESCRIPTOR: byte := 0x06
  const SC_SET_CONFIGURATION: byte := 0x09
  const SC_SET_INTERFACE: byte := 0x0B

  // feature selector ENDPOINT_HALT (table 9-6 of USB 2.0)
  const EP_HALT: u16 := 0

  /**
   * `bReqType = setupdat0 & 0xFF`, `bRequest = (setupdat0 & 0xFF00) >> 8`,
   * `wValue = (setupdat0 & 0xFFFF0000) >> 16`, `wIndex = setupdat1 & 0xFFFF`,
   * `wLength = (setupdat1 & 0xFFFF0000) >> 16`. Decoding is one-to-one: packing
   * the five fields back gives the two words the callback received.
   */
  function Decode(setupdat0: u32, setupdat1: u32): (s: Setup)
    ensures Encode(s) == (setupdat0, setupdat1)
  {
    Setup(setupdat0 % 0x100, (setupdat0 / 0x100) % 0x100, setupdat0 / 0x1_0000,
          setupdat1 % 0x1_0000, setupdat1 / 0x1_0000)
  }

  /** The two words carrying a setup packet, as the host's bytes 0..7 read little-endian. */
  function Encode(s: Setup): (u32, u32)
  {
    (s.bmRequestType + s.bRequest * 0x100 + s.wValue * 0x1_0000, s.wIndex + s.wLength * 0x1_0000)
  }

  /** Every setup packet survives the trip through the two words. */
  lemma {:induction false} DecodeEncode(s: Setup)
    ensures Decode(Encode(s).0, Encode(s).1) == s
  {
    var w0 := s.bmRequestType + s.bRequest * 0x100 + s.wValue * 0x1_0000;
    assert w0 % 0x100 == s.bmRequestType;
    assert w0 / 0x100 == s.bRequest + s.wValue * 0x100;
    assert w0 / 0x1_0000 == s.wValue;
  }

  /** `bmRequestType & 0x60`: the request type bits 6..5. */
  function RequestType(bmRequestType: byte): (t: byte)
    ensures t in {STANDARD_RQT, CLASS_RQT, VENDOR_RQT, 0x60}
    ensures t == bmRequestType - bmRequestType % 0x20 - (bmRequestType / 0x80) * 0x80
  {
    ((bmRequestType / 0x20) % 4) * 0x20
  }

  /** `bmRequestType & 0x03`: the recipient bits 1..0. */
  function Target(bmRequestType: byte): (t: byte)
    ensures t < 4 && (bmRequestType - t) % 4 == 0
  {
    bmRequestType % 4
  }
}
