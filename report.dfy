/**
  The joystick report: three axis bytes and one button byte, four bytes in
  all, as the HID report descriptor declares them (two simulation-control
  axes and a slider of 8 bits each, then 8 one-bit buttons).
*/
module Report {
  import opened Bytes

  /** sizeof(report_t): axisData[3] then buttons, all unsigned bytes. */
  const ReportSize := 4

  /** The port C bits that carry push buttons: PC2 to PC6. */
  const ButtonMask: bv8 := 0x7C

  /** Bit k of a byte, as 0 or 1. */
  function Bit(x: bv8, k: nat): bv8
    requires k < 8
  {
    (x >> k) & 1
  }

  /** An axis byte from an ADC result. The conversion returns an unsigned
      short; the shift right by two and the store into an unsigned char keep
      bits 2 to 9. For a 10-bit reading this is the reading divided by 4. */
  function AxisByte(sample: ushort): (r: byte)
    ensures sample < 1024 ==> r == sample / 4
  {
    (sample / 4) % 0x100
  }

  /** Over the 10-bit range of the converter the axis byte never decreases
      as the reading grows. */
  lemma AxisMonotone(a: ushort, b: ushort)
    requires a <= b < 1024
    ensures AxisByte(a) <= AxisByte(b)
  {
  }

  /** The button byte: the inverted port C masked to the buttons, with
      latch 0's flag in bit 1 and latch 1's flag in bit 0. With both flags 0
      or 1 (the latch invariant), bits 2 to 6 are the inverted button pins,
      bit 7 is 0, and bits 1 and 0 are the two flags. */
  function ButtonByte(pins: bv8, status0: byte, status1: byte): (r: bv8)
    ensures status0 <= 1 && status1 <= 1 ==>
      forall k :: 2 <= k < 7 ==> Bit(r, k) == Bit(!pins, k)
    ensures status0 <= 1 && status1 <= 1 ==>
      Bit(r, 7) == 0 && Bit(r, 1) as int == status0 && Bit(r, 0) as int == status1
  {
    (!pins & ButtonMask) | ((status0 as bv8) << 1) | status1 as bv8
  }
}
