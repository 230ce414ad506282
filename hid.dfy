/**
  The USB control request the driver hands to usbFunctionSetup: the 8-byte
  SETUP packet of section 9.3 of the USB 2.0 specification, read through
  the driver's usbRequest_t overlay, and the request codes the firmware
  answers (the HID class requests of section 7.2 of the USB Device Class
  Definition for HID 1.11).
*/
module Hid {
  import opened Bytes

  /** Bits 6..5 of bmRequestType give the request type; 1 means class. */
  const TypeMask: bv8 := 0x60
  const TypeClass: bv8 := 0x20

  /** HID class request codes. */
  const GetReport: byte := 0x01
  const GetIdle: byte := 0x02
  const SetIdle: byte := 0x0A

  /** The fields of a SETUP packet; the 16-bit fields are little-endian on the wire
      and in the AVR's memory. */
  datatype SetupPacket = SetupPacket(bmRequestType: byte, bRequest: byte, wValue: ushort, wIndex: ushort, wLength: ushort)

  function Word(lo: byte, hi: byte): ushort {
    hi * 0x100 + lo
  }

  function LowByte(w: ushort): byte {
    w % 0x100
  }

  /** The second byte in memory of a little-endian word: wValue.bytes[1]. */
  function HighByte(w: ushort): byte {
    w / 0x100
  }

  /** The usbRequest_t view of the 8 bytes the driver passes in. */
  function Overlay(data: seq<byte>): (p: SetupPacket)
    requires |data| == 8
    ensures HighByte(p.wValue) == data[3]
  {
    SetupPacket(data[0], data[1], Word(data[2], data[3]), Word(data[4], data[5]), Word(data[6], data[7]))
  }

  /** The bytes of a SETUP packet as the host puts them on the bus: the wire
      layout that the overlay reads back. The firmware only reads packets;
      this is the other side of that reading. */
  function Serialize(p: SetupPacket): (data: seq<byte>)
    ensures |data| == 8
  {
    [p.bmRequestType, p.bRequest,
     LowByte(p.wValue), HighByte(p.wValue),
     LowByte(p.wIndex), HighByte(p.wIndex),
     LowByte(p.wLength), HighByte(p.wLength)]
  }

  /** The overlay reads back every field of a serialized packet ... */
  lemma OverlaySerialize(p: SetupPacket)
    ensures Overlay(Serialize(p)) == p
  {
  }

  /** ... and loses no byte of the packet. */
  lemma SerializeOverlay(data: seq<byte>)
    requires |data| == 8
    ensures Serialize(Overlay(data)) == data
  {
  }

  /** A class request: the two-bit type field of bmRequestType equals 1. */
  predicate IsClassRequest(bmRequestType: byte)
    ensures IsClassRequest(bmRequestType) <==> (bmRequestType / 32) % 4 == 1
  {
    (bmRequestType as bv8) & TypeMask == TypeClass
  }
}
