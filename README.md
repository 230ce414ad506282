# Throttle firmware model

A Dafny model of the control logic of an AVR USB joystick/throttle firmware
(`throttle.c`). The firmware samples three analog axes, reads port C for
five push buttons and two toggle switches, and reports the result as a 4-byte
HID joystick report. The model covers the three pieces of code that make up
that logic and the state they share:

- **Toggle latches.** Each of the two toggle switches owns a latch, the pair
  (`toggleStatus[i]`, `toggleTimeout[i]`). One loop iteration arms a latch
  when its toggle bit differs from the bits seen on the previous iteration
  (XOR edge detection against `oldToggleStatus`). The timer overflow handler
  counts an armed latch down over 16 ticks, so a flip of the switch shows up
  as a 16-tick button press.
- **Report composition.** Each axis byte is the ADC result shifted right by
  two and stored as an unsigned char. The button byte is the inverted port C
  masked to PC2..PC6, with latch 0's flag in bit 1 and latch 1's flag in
  bit 0.
- **HID class requests.** `usbFunctionSetup` answers three HID class
  requests (section 7.2 of the USB Device Class Definition for HID 1.11).
  Get_Report points the driver at the 4-byte report. Get_Idle points it at
  the stored idle rate, one byte. Set_Idle stores the high byte of `wValue`.
  Every other request gets a zero-length answer.

Layout:

- `bytes.dfy`: `Bytes.byte` and `Bytes.ushort`, the C unsigned char and
  unsigned short as integer subranges.
- `toggle.dfy`: the `Toggle` module, a value-level specification of the
  latches. One latch is a `Latch`, both latches with `oldToggleStatus` form a
  `Debouncer`, and the events are a timer tick or a loop iteration. It holds
  the lemmas about runs of events: the latch invariant, the pulse shape and
  re-triggering.
- `report.dfy`: the `Report` module, the byte arithmetic of the report.
- `hid.dfy`: the `Hid` module. It holds the 8-byte SETUP packet as seen
  through the driver's `usbRequest_t` overlay (little-endian words), the
  request constants, and the class-request test on `bmRequestType`.
- `firmware.dfy`: the `Firmware` module. `Firmware.Device` is a class whose
  fields are the firmware's statics: `reportBuffer` (as `axisData` and
  `buttons`), `idleRate`, `toggleStatus`, `toggleTimeout` and the loop
  variable `oldToggleStatus`. It also has a field `msgPtr` standing for the
  driver's `usbMsgPtr`. There are three mutating methods:
  - `Tick` is the timer ISR.
  - `LoopStep` is one iteration of the `for(;;)` loop after `usbPoll`. It
    runs the three commented stages of the loop body as the methods
    `ReadAxes`, `CheckToggles` and `ComposeButtons`.
  - `Setup` is `usbFunctionSetup`.

  Each method's postcondition ties the new latch state to `Toggle.TickStep`
  or `Toggle.EdgeStep` of the old one. This gives every interleaving of whole
  loop iterations and timer ticks the invariant of `Toggle`.

Hardware reads are inputs. The three ADC results are `ushort` parameters of
`LoopStep`. Port C is read twice in the loop body, once for the toggles
(throttle.c:124) and once for the buttons (throttle.c:136), so it appears as
two parameters. A caller passes the same value twice to model a port that
did not change between the reads. `usbInterruptIsReady` is the boolean
`ready`. The bytes handed to `usbSetInterrupt` are `LoopStep`'s result.

The request constants (`USBRQ_TYPE_MASK` 0x60, `USBRQ_TYPE_CLASS` 0x20,
`USBRQ_HID_GET_REPORT` 0x01, `USBRQ_HID_GET_IDLE` 0x02,
`USBRQ_HID_SET_IDLE` 0x0A) and the layout of `usbRequest_t` come from the
driver header `usbdrv.h`, which is not part of this model. These values are
the ones fixed by section 9.3 of the USB 2.0 specification and section 7.2
of HID 1.11.

The report descriptor declares eight one-bit buttons (throttle.c:48-55),
but the code masks port C with 0x7C (throttle.c:136), so bit 7 of the button
byte is always 0, and `Report.ButtonByte` says so.

## Model

| member | source | states |
|---|---|---|
| `Toggle.TickLatch` | throttle.c:148-159 | A tick on an idle latch (timeout 0) changes nothing. A tick on an active latch lowers the timeout by exactly one, with no wrap-around, and clears the flag exactly when the new timeout is 0. The tick preserves the latch invariant. |
| `Toggle.TickStep` | throttle.c:145-160 | The timer handler ticks each latch on its own, and the remembered toggle bits do not change. It preserves the debouncer invariant. |
| `Toggle.ToggleBits` | throttle.c:124 | The toggle bits are in 0..3. Bit 0 is set exactly when PC0 reads low, bit 1 exactly when PC1 reads low (active-low wiring). |
| `Toggle.Changed` | throttle.c:125-129 | XOR edge detection fires exactly when the masked bits of the new and old values differ. |
| `Toggle.Mask` | throttle.c:125-132 | Each latch is driven by a single toggle bit: latch 0 by bit 1 (mask 0x2), latch 1 by bit 0 (mask 0x1). |
| `Toggle.EdgeStep` | throttle.c:124-133 | A change of a latch's toggle bit arms that latch to flag 1 and timeout 16, whatever its previous timeout: the pulse restarts and is never extended by adding. Without a change the latch is untouched, and with no change in either bit both latches are untouched. `oldToggleStatus` becomes the new masked value, which is at most 3. The step preserves the debouncer invariant. |
| `Toggle.TicksValid` | throttle.c:148-159 | Any number of ticks keeps a valid latch valid. |
| `Toggle.TicksSucc` | throttle.c:145-160 | n+1 ticks are n ticks followed by one more. |
| `Toggle.IdleStays` | throttle.c:148-159 | An idle latch stays idle under any number of ticks. |
| `Toggle.CountDown` | throttle.c:148-159 | A set latch with k ticks to go (1 <= k <= 16) is still set with k-n to go after n < k ticks, and idle from the k-th tick on. |
| `Toggle.PulseShape` | throttle.c:127-159 | After arming, the flag is 1 for the next 15 ticks and 0 from the 16th tick on. The timeout is 16-n after n < 16 ticks. |
| `Toggle.RunAppend` | throttle.c:116-160 | Running two event sequences one after the other equals running their concatenation. |
| `Toggle.RunPreservesValid` | throttle.c:124-160 | Every sequence of timer ticks and whole loop iterations keeps flag == 1 exactly when timeout > 0, and timeout <= 16, for both latches, with the remembered bits in 0..3. |
| `Toggle.ReachableValid` | throttle.c:68-160 | Starting from the zero power-up state, every interleaving of ticks and loop iterations reaches only states that satisfy the latch invariant. |
| `Toggle.Steady` | throttle.c:124-160 | While latch i's toggle bit holds still, loop iterations do not disturb the latch, whatever the other toggle does. The latch then evolves by the number of ticks alone. |
| `Toggle.PulseAfterEdge` | throttle.c:124-160 | After a loop iteration that sees latch i's toggle bit change, and while the bit then holds still, the latch's flag is 1 while fewer than 16 ticks have passed and 0 afterwards. |
| `Toggle.Retrigger` | throttle.c:125-132 | An edge in the middle of a pulse restarts it. The new pulse lasts the full 16 ticks counted from that edge, whatever came before. |
| `Report.AxisByte` | throttle.c:120-122 | For a 10-bit converter result v < 1024, the axis byte is v / 4, so it lies in 0..255. |
| `Report.AxisMonotone` | throttle.c:120-122 | Over the converter's 10-bit range, a larger sample never gives a smaller axis byte. |
| `Report.ButtonByte` | throttle.c:136-137 | With both latch flags 0 or 1: bits 2-6 are the inverted port C bits 2-6, bit 7 is 0, bit 1 is latch 0's flag and bit 0 is latch 1's flag. |
| `Hid.Overlay` | throttle.c:72-84 | The high byte of the overlay's `wValue` (`wValue.bytes[1]`) is byte 3 of the SETUP packet. |
| `Hid.Serialize` | throttle.c:72 | The host-side wire layout of a SETUP packet, the partner of the overlay, is eight bytes long. |
| `Hid.OverlaySerialize` | throttle.c:72 | Reading a serialized packet through the overlay gives back every field. |
| `Hid.SerializeOverlay` | throttle.c:72 | The overlay loses no byte of the 8-byte packet. |
| `Hid.IsClassRequest` | throttle.c:73 | `(bmRequestType & 0x60) == 0x20` holds exactly when the two-bit type field in bits 6..5 is 1, the class type. |
| `Firmware.Device.ReportBytes` | throttle.c:59-64 | The report buffer is `sizeof(report_t)` = 4 bytes: three axis bytes, then the button byte. |
| `Firmware.Device.constructor` | throttle.c:64-115 | At power-up the report, the idle rate, both latches and `oldToggleStatus` are zero. This state is the debouncer's reset state and satisfies the invariant. |
| `Firmware.Device.Tick` | throttle.c:145-160 | The ISR changes only the latch arrays. Their new state is `TickStep` of the old state, so the invariant is kept. |
| `Firmware.Device.ReadAxes` | throttle.c:120-122 | The three axis bytes become the axis bytes of channels 5, 6 and 7. |
| `Firmware.Device.CheckToggles` | throttle.c:124-133 | The latches and `oldToggleStatus` become `EdgeStep` of their old values. |
| `Firmware.Device.ComposeButtons` | throttle.c:136-137 | The button byte becomes `ButtonByte` of the button read of port C and the current latch flags. |
| `Firmware.Device.LoopStep` | throttle.c:116-142 | One loop iteration leaves the latches in `EdgeStep` of their old state and keeps the invariant. The report it leaves is the three axis bytes and the button byte composed from the latch flags just updated. It hands exactly that report to the driver when the endpoint is ready, and nothing otherwise. The idle rate is unchanged. |
| `Firmware.Device.Setup` | throttle.c:71-90 | For a class request: Get_Report answers 4 bytes and points at the report; Get_Idle answers 1 byte and points at the idle rate; Set_Idle answers 0 and stores byte 3 of the packet (the high byte of `wValue`). Every other request answers 0 and changes neither the idle rate nor the message pointer. No request changes the report or the latches. A non-zero answer length equals the size of the object pointed at. |
| `Firmware.IdleRoundTrip` | throttle.c:80-85 | A Set_Idle followed by a Get_Idle answers exactly the byte that was set, for every byte value, and leaves the report and the latches unchanged. |
| `Firmware.TogglePulse` | throttle.c:124-160 | On the device, after a loop iteration that sees toggle 0 flip and then n ticks, latch 0's flag is 1 exactly when n < 16. The next loop iteration with the same toggle bits sends a 4-byte report whose button bit 1 is that flag. |

## Left out

- `adc.c` (`adcInit`, `adcUninit`, `adcConvertChannel`) writes the converter's registers and busy-waits on its status bit. Only the result is modelled, as an unsigned short parameter of `LoopStep`.
- The USB driver calls `usbInit`, `usbDeviceDisconnect`, `usbDeviceConnect`, `usbPoll`, `usbInterruptIsReady` and `usbSetInterrupt` are foreign code. Readiness is a boolean input and the handed-over bytes are an output. The driver's clipping of a reply to the host's `wLength` is driver behaviour and is not modelled.
- Watchdog (`wdt_enable`, `wdt_reset`), `_delay_ms`, the timer, port and interrupt set-up (`TCCR0`, `TIMSK`, `DDRC`, `PORTC`, `sei`) are boot sequencing with no logic. The watchdog-liveness property needs timing and is not modelled.
- The HID report descriptor table (throttle.c:26-57) is a constant and is not modelled. Only its 4-byte total appears, as `Report.ReportSize`.
- True preemption of a loop iteration by the ISR is not modelled. A timer tick is an atomic step between two whole loop iterations, so the benign data race between the loop and the ISR is outside the model.
- The wall-clock length of a pulse depends on the CPU clock and the timer prescaler. Only the tick count (16) is modelled.
- `usbMsgLen_t` is an unsigned char unless the driver is built for long transfers. The model uses a byte, which is enough for the lengths 0, 1 and 4 returned here.
- Report.ButtonByte: the contract characterises the byte only when both latch flags are 0 or 1, which the latch invariant guarantees. For other flag values the shifted flag bits would overlap the button bits; the body models that, but the contract does not describe it.
- Report.AxisByte: the contract speaks only of 10-bit readings (v < 1024). For larger unsigned short values the body keeps bits 2 to 9, as the unsigned char store does, but the contract says nothing about them.
