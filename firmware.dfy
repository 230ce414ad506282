/**
  The firmware's shared state and the three pieces of code that change it:
  the timer overflow handler (Tick), one iteration of the main loop after
  usbPoll (LoopStep) and the control-request callback (Setup). A timer
  interrupt is modelled as a Tick call between two whole LoopStep calls.
*/
module Firmware {
  import opened Bytes
  import opened Toggle
  import opened Report
  import opened Hid

  /** What the driver's usbMsgPtr points at after a request. */
  datatype Target = NoTarget | ReportBuffer | IdleRate

  class Device {
    /** reportBuffer.axisData and reportBuffer.buttons. */
    var axisData: array<byte>
    var buttons: bv8
    var idleRate: byte
    var toggleStatus: array<byte>
    var toggleTimeout: array<byte>
    /** The loop variable oldToggleStatus of main, carried from one iteration to the next. */
    var oldToggleStatus: bv8
    /** The USB driver's usbMsgPtr, written by Setup. */
    var msgPtr: Target

    /** The arrays have the sizes the source declares and are distinct. */
    ghost predicate Shape()
      reads this
    {
      axisData.Length == 3 && toggleStatus.Length == 2 && toggleTimeout.Length == 2 && toggleStatus != toggleTimeout
    }

    /** The debouncer state held in the two latch arrays and oldToggleStatus. */
    ghost function Toggles(): Debouncer
      reads this, toggleStatus, toggleTimeout
      requires Shape()
    {
      Debouncer(Latch(toggleStatus[0], toggleTimeout[0]), Latch(toggleStatus[1], toggleTimeout[1]), oldToggleStatus)
    }

    /** The object invariant: the latch invariant for both latches. */
    ghost predicate Valid()
      reads this, toggleStatus, toggleTimeout
    {
      Shape() && DebouncerValid(Toggles())
    }

    /** The four bytes of reportBuffer in memory order. */
    function ReportBytes(): (r: seq<byte>)
      reads this, axisData
      requires axisData.Length == 3
      ensures |r| == ReportSize
    {
      axisData[..] + [buttons as int]
    }

    /** The bytes of the object usbMsgPtr points at. */
    function Pointee(): seq<byte>
      reads this, axisData
      requires axisData.Length == 3
    {
      match msgPtr
      case NoTarget => []
      case ReportBuffer => ReportBytes()
      case IdleRate => [idleRate]
    }

    /** Power-up: every static starts at zero. */
    constructor ()
      ensures Shape() && fresh(axisData) && fresh(toggleStatus) && fresh(toggleTimeout)
      ensures Toggles() == Reset && Valid()
      ensures ReportBytes() == [0, 0, 0, 0] && idleRate == 0 && msgPtr == NoTarget
    {
      axisData := new byte[3] [0, 0, 0];
      buttons := 0;
      idleRate := 0;
      toggleStatus := new byte[2] [0, 0];
      toggleTimeout := new byte[2] [0, 0];
      oldToggleStatus := 0;
      msgPtr := NoTarget;
    }

    /** The timer overflow handler: each active latch counts down by one and
        drops its flag when it reaches zero. Nothing but the latches changes. */
    method Tick()
      requires Shape()
      modifies toggleStatus, toggleTimeout
      ensures Shape()
      ensures Toggles() == TickStep(old(Toggles()))
      ensures old(Valid()) ==> Valid()
    {
      ghost var before := Toggles();
      if toggleTimeout[0] > 0 {
        toggleTimeout[0] := toggleTimeout[0] - 1;
        if toggleTimeout[0] == 0 {
          toggleStatus[0] := 0;
        }
      }
      assert Latch(toggleStatus[0], toggleTimeout[0]) == TickLatch(before.latch0);
      if toggleTimeout[1] > 0 {
        toggleTimeout[1] := toggleTimeout[1] - 1;
        if toggleTimeout[1] == 0 {
          toggleStatus[1] := 0;
        }
      }
      assert Latch(toggleStatus[1], toggleTimeout[1]) == TickLatch(before.latch1);
    }

    /** Read ADC data: each axis byte from its converter channel. */
    method ReadAxes(sample5: ushort, sample6: ushort, sample7: ushort)
      requires axisData.Length == 3
      modifies axisData
      ensures axisData[..] == [AxisByte(sample5), AxisByte(sample6), AxisByte(sample7)]
    {
      axisData[0] := AxisByte(sample5);
      axisData[1] := AxisByte(sample6);
      axisData[2] := AxisByte(sample7);
    }

    /** Check the toggle switches: arm the latch of each toggle bit that
        differs from the previous iteration, then remember the new bits. */
    method CheckToggles(togglePins: bv8)
      requires Shape()
      modifies this`oldToggleStatus, toggleStatus, toggleTimeout
      ensures Shape()
      ensures Toggles() == EdgeStep(old(Toggles()), togglePins)
    {
      var newToggleStatus := ToggleBits(togglePins);
      if (newToggleStatus ^ oldToggleStatus) & 0x2 != 0 {
        toggleStatus[0] := 1;
        toggleTimeout[0] := PulseTicks;
      }
      if (newToggleStatus ^ oldToggleStatus) & 0x1 != 0 {
        toggleStatus[1] := 1;
        toggleTimeout[1] := PulseTicks;
      }
      oldToggleStatus := newToggleStatus;
    }

    /** Compose button info: the inverted button pins and both latch flags. */
    method ComposeButtons(buttonPins: bv8)
      requires Shape()
      modifies this`buttons
      ensures buttons == ButtonByte(buttonPins, toggleStatus[0], toggleStatus[1])
    {
      buttons := !buttonPins & ButtonMask;
      buttons := buttons | ((toggleStatus[0] as bv8) << 1) | toggleStatus[1] as bv8;
    }

    /** One iteration of the main loop after usbPoll. The three ADC results
        and the two reads of port C are parameters; ready is the answer of
        usbInterruptIsReady and sent the bytes handed to usbSetInterrupt. */
    method LoopStep(sample5: ushort, sample6: ushort, sample7: ushort, togglePins: bv8, buttonPins: bv8, ready: bool)
      returns (sent: seq<byte>)
      requires Shape()
      modifies this`buttons, this`oldToggleStatus, axisData, toggleStatus, toggleTimeout
      ensures Shape()
      ensures Toggles() == EdgeStep(old(Toggles()), togglePins)
      ensures old(Valid()) ==> Valid()
      ensures ReportBytes() == [AxisByte(sample5), AxisByte(sample6), AxisByte(sample7),
                                ButtonByte(buttonPins, toggleStatus[0], toggleStatus[1]) as int]
      ensures sent == if ready then ReportBytes() else []
    {
      ReadAxes(sample5, sample6, sample7);
      CheckToggles(togglePins);
      ComposeButtons(buttonPins);
      if ready {
        sent := ReportBytes();
      } else {
        sent := [];
      }
    }

    /** usbFunctionSetup. For a class request, GET_REPORT points the driver
        at the report and answers its 4 bytes, GET_IDLE points at idleRate
        and answers 1 byte, SET_IDLE stores the high byte of wValue. Every
        other request answers 0 bytes and changes nothing. No request touches
        the report or the latches. */
    method Setup(data: seq<byte>) returns (len: byte)
      requires |data| == 8
      requires Shape()
      modifies this`idleRate, this`msgPtr
      ensures ReportBytes() == old(ReportBytes()) && Toggles() == old(Toggles())
      ensures var rq := Overlay(data);
        IsClassRequest(rq.bmRequestType) && rq.bRequest == GetReport ==>
          len as int == ReportSize && msgPtr == ReportBuffer && Pointee() == ReportBytes() &&
          idleRate == old(idleRate)
      ensures var rq := Overlay(data);
        IsClassRequest(rq.bmRequestType) && rq.bRequest == GetIdle ==>
          len == 1 && msgPtr == IdleRate && Pointee() == [idleRate] && idleRate == old(idleRate)
      ensures var rq := Overlay(data);
        IsClassRequest(rq.bmRequestType) && rq.bRequest == SetIdle ==>
          len == 0 && idleRate == HighByte(rq.wValue) && idleRate == data[3] && msgPtr == old(msgPtr)
      ensures var rq := Overlay(data);
        !(IsClassRequest(rq.bmRequestType) && rq.bRequest in {GetReport, GetIdle, SetIdle}) ==>
          len == 0 && idleRate == old(idleRate) && msgPtr == old(msgPtr)
      ensures len > 0 ==> len as int == |Pointee()|
    {
      var rq := Overlay(data);
      if (rq.bmRequestType as bv8) & TypeMask == TypeClass {
        if rq.bRequest == GetReport {
          msgPtr := ReportBuffer;
          return ReportSize;
        } else if rq.bRequest == GetIdle {
          msgPtr := IdleRate;
          return 1;
        } else if rq.bRequest == SetIdle {
          idleRate := HighByte(rq.wValue);
        }
      }
      return 0;
    }
  }

  /** SET_IDLE followed by GET_IDLE answers the stored byte, for every value,
      and leaves the report and the latches as they were. */
  method IdleRoundTrip(d: Device, setIdle: seq<byte>, getIdle: seq<byte>) returns (answer: seq<byte>)
    requires d.Shape()
    requires |setIdle| == 8 && IsClassRequest(setIdle[0]) && setIdle[1] == SetIdle
    requires |getIdle| == 8 && IsClassRequest(getIdle[0]) && getIdle[1] == GetIdle
    modifies d`idleRate, d`msgPtr
    ensures answer == [setIdle[3]]
    ensures d.ReportBytes() == old(d.ReportBytes()) && d.Toggles() == old(d.Toggles())
  {
    var len0 := d.Setup(setIdle);
    var len1 := d.Setup(getIdle);
    answer := d.Pointee()[..len1];
  }

  /** The pulse at the level of the firmware: after a loop iteration that sees
      toggle 0's bit change and then n timer ticks, the next loop iteration
      that reads the same toggle bits finds latch 0's flag set exactly when
      n < 16, and sends it as button bit 1 of the report. */
  method TogglePulse(d: Device, togglePins: bv8, buttonPins: bv8, n: nat) returns (sent: seq<byte>)
    requires d.Valid()
    requires Changed(ToggleBits(togglePins), d.oldToggleStatus, Mask(0))
    modifies d`buttons, d`oldToggleStatus, d.axisData, d.toggleStatus, d.toggleTimeout
    ensures d.Valid()
    ensures d.toggleStatus[0] == (if n < PulseTicks then 1 else 0)
    ensures |sent| == ReportSize && sent[3] == d.buttons as int
    ensures Bit(d.buttons, 1) == (if n < PulseTicks then 1 else 0)
  {
    var first := d.LoopStep(0, 0, 0, togglePins, buttonPins, false);
    var k := 0;
    while k < n
      invariant 0 <= k <= n
      invariant d.Valid()
      invariant d.oldToggleStatus == ToggleBits(togglePins)
      invariant d.Toggles().latch0 == Ticks(Armed, k)
    {
      d.Tick();
      TicksSucc(Armed, k);
      k := k + 1;
    }
    PulseShape(n);
    sent := d.LoopStep(0, 0, 0, togglePins, buttonPins, true);
  }
}
