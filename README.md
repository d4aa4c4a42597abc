# rusty-rc in Dafny

This is a model of the firmware core of rusty-rc. The firmware turns an STM32F4 board into a USB HID joystick. Six analog channels are sampled by the 12-bit ADC through DMA. The first two of them pass through a self-calibrating linear scaler; the other four axes stay at zero. Ten button pins are read. The board then presents itself to the host as a HID joystick with one 13-byte input report.

The model has six modules:

- `Wrappers` holds `Option` and `Result`.
- `MachineInts` holds the `u8`, `u16`, `u32` and `i16` ranges, and the two's-complement view of an `i16`.
- `Inputs` models src/inputs.rs:
  - the three-way switch decoder;
  - `LinearInput`, the per-channel scaler. Its `u16`/`u32` arithmetic is checked. Every overflow, inverted `clamp` bound or zero span surfaces as a `Trap`, as it would in a build with overflow checks and debug assertions.
- `Types` models src/types.rs. `JoystickState` has an explicit little-endian serialiser, which stands for `as_u8_slice`'s raw memory view on the little-endian Cortex-M, and a decoder.
- `Hid` models src/hid.rs:
  - an encoder and decoder for HID 1.11 short items, with proofs in both directions (section 6.2.2.2 of the HID 1.11 class definition);
  - a front-to-back reading of the item stream: the four globals that shape an Input field (Logical Minimum, Logical Maximum, Report Size, Report Count), the Input fields and the collection nesting;
  - a proof that `REPORT_DESCR` reads as the joystick's four Input fields;
  - the HID descriptor and the configuration payload;
  - the `control_in`/`control_out` decisions, as returned `Accept(bytes) | Reject | Ignore` values.
- `App` models src/main.rs:
  - the initial resources;
  - the `read_analog` loop, with `linear_inputs` as an array updated in place;
  - the `dma` buffer exchange, with the DMA stream as a class that owns one buffer;
  - the payload the body of `usb_report` would send.

Behaviours of the code that differ from what a reader might expect. The model follows the code in each:

- The report task `usb_report` is never started. `init` spawns only `read_analog` and `polling` (src/main.rs:182-184); the line that would spawn a report task is commented out, and the task's only other spawn is its own reschedule inside its body. So `HIDClass::write` is never called. `App.UsbReport` models what the body would send if it ran: the serialised `from_ppm_time()`, 13 zero bytes, not the latest reading.
- GET_REPORT answers 4 zero bytes, not a 13-byte report.
- `set_center` does not keep `mid` inside `[start, end]`.
- GET_DESCRIPTOR(0x21) and GET_DESCRIPTOR(0x22) are both answered without looking at the interface index (src/hid.rs:112-140 never reads `req.index`).
- The HID descriptor announces bcdHID 0x0101, HID release 1.01 (src/hid.rs:78-79 and :124-125), while its items follow the 1.11 class definition.
- The source comments name both usages 0x36 and 0x37 `Dial`. By the HID usage tables 0x36 is Slider, so the descriptor declares a Slider and a Dial. The model's item comments use the standard names.

## Model

| member | source | states |
|---|---|---|
| MachineInts.Word16 | src/hid.rs:83-84 | the 16-bit value of a low/high byte pair; its low and high bytes are the pair |
| MachineInts.I16Bits | src/types.rs:48-53 | the two's-complement bit pattern of an `i16` as `as_u8_slice` sees it in memory: its residue modulo 2^16 |
| MachineInts.I16OfBits | src/types.rs:15-24 | the `i16` whose two's-complement pattern is the given `u16` |
| MachineInts.I16BitsInjective | src/types.rs:15-24 | reading an `i16`'s bit pattern back gives the `i16` |
| Inputs.SwitchPins | src/inputs.rs:26-29 | the pin pattern each switch position stands for; never both pins active |
| Inputs.ThreeWayTryFrom | src/inputs.rs:22-33 | fails exactly when both pins are active, with the firmware's message; otherwise the decoded position's pin pattern is the input |
| Inputs.ThreeWayRoundTrip | src/inputs.rs:26-29 | decoding a position's pin pattern gives that position |
| Inputs.AddU16 | src/inputs.rs:91 | `u16` addition succeeds exactly when the sum fits, with the sum |
| Inputs.SubU16 | src/inputs.rs:107 | `u16` subtraction succeeds exactly when it does not go below zero |
| Inputs.MulU32 | src/inputs.rs:113 | `u32` multiplication succeeds exactly when the product fits |
| Inputs.TruncateU16 | src/inputs.rs:113 | `as u16` keeps a value that fits |
| Inputs.Clamp | src/inputs.rs:96 | the result lies in `[lo, hi]`; it is `v` inside, `lo` below and `hi` above |
| Inputs.Default | src/inputs.rs:42-46 | the default channel is uncalibrated; committing a centre leaves it so |
| Inputs.ResetCalibration | src/inputs.rs:50-52 | from any state the result is the default state |
| Inputs.SetCenter | src/inputs.rs:55-63 | a no-op when uncalibrated; otherwise a committed calibration with the old envelope and `v` as midpoint; keeps `start <= end` |
| Inputs.Observe | src/inputs.rs:69-81 | the first sample opens `[v, v]`; an ongoing calibration widens to `[min(start, v), max(end, v)]`; a committed one is unchanged; keeps `start <= end` and the 12-bit bound |
| Inputs.Get | src/inputs.rs:68-114 | the new state is `Observe`'s |
| Inputs.ScaleHalf | src/inputs.rs:107-113 | a definition: the scaling in one half of the envelope, with every checked step of the source. Its properties are `Inputs.ScaleHalfValue` and `Inputs.ScaleHalfMonotone` |
| Inputs.Scale | src/inputs.rs:95-105 | a definition: clamp to the envelope, then scale in the half below or above the midpoint, or return 500 at it. Its properties are `Inputs.ScaleInRange`, `Inputs.ScaleClamps`, `Inputs.ScaleMonotone` and `Inputs.ScaleEndpoints` |
| Inputs.ScaleHalfValue | src/inputs.rs:107-113 | inside a half, the scaled value is the offset plus the biased proportion, which lies in `0..=500` |
| Inputs.ScaleHalfMonotone | src/inputs.rs:107-113 | inside a half, scaling is monotone |
| Inputs.ScaleInRange | src/inputs.rs:95-113 | for an envelope within 12 bits, scaling never traps, lies in `0..=1000`, is at most 500 below the midpoint, at least 500 above it, and exactly 500 at it |
| Inputs.ScaleClamps | src/inputs.rs:96 | a sample below the envelope reads as `start`, one above it as `end` |
| Inputs.ScaleMonotone | src/inputs.rs:95-113 | for an envelope within 12 bits, scaling is monotone in the sample over all of `u16` |
| Inputs.ScaleEndpoints | src/inputs.rs:99-113 | `start` reads 0 and `end` reads 1000 when they differ from the midpoint |
| Inputs.ScaleDegenerate | src/inputs.rs:99-105 | a one-point envelope always reads 500 |
| Inputs.ScaleExample | src/inputs.rs:95-113 | with start 100, mid 500 and end 900, samples 100, 500, 900 and 50 read 0, 500, 1000 and 0 |
| Inputs.GetFirstSample | src/inputs.rs:71-73 | the first sample opens `[v, v]` and reads 500; only a first sample above 32767 overflows `start + end` |
| Inputs.GetNeverUncalibrated | src/inputs.rs:87-90 | `get` never leaves the channel uncalibrated, so the early return for that state is dead |
| Inputs.GetWidensEnvelope | src/inputs.rs:74-79 | during calibration the envelope becomes `[min(start, v), max(end, v)]`: it only widens and contains `v` |
| Inputs.GetCalibratedKeepsState | src/inputs.rs:70-81 | `get` on a committed calibration leaves it unchanged and scales through it |
| Inputs.GetInRange | src/inputs.rs:96-113 | from a state learned from 12-bit samples, a 12-bit sample never traps, reads in `0..=1000`, and the new state is again within 12 bits |
| Inputs.GetMonotone | src/inputs.rs:96-113 | with a committed calibration, `get` is monotone in the sample |
| Inputs.CommitThenGet | src/inputs.rs:55-63 | `set_center(v)` then `get(v)` reads exactly 500 for `v` in the envelope, with the resulting state |
| Inputs.CalibrationScenario | src/inputs.rs:50-114 | sweeping 500, 100 and 900, then committing 500, reads 0, 500 and 1000 at the extremes and centre |
| Types.FromPpmTime | src/types.rs:31-43 | every axis, dial and the buttons are zero |
| Types.LittleEndian | src/types.rs:48-53 | two bytes, low first, whose 16-bit value is the `i16`'s bit pattern |
| Types.FromLittleEndian | src/types.rs:48-53 | the `i16` whose little-endian bytes are the given pair |
| Types.LittleEndianRoundTrip | src/types.rs:48-53 | decoding an `i16`'s two bytes gives it back |
| Types.AsU8Slice | src/types.rs:11-28 | 13 bytes; field `k` in declaration order at bytes `2k, 2k+1` little-endian; buttons at byte 12 |
| Types.FromU8Slice | src/types.rs:48-53 | a payload decodes exactly when it is 13 bytes long |
| Types.RoundTrip | src/types.rs:48-53 | decoding the serialisation gives the report back |
| Types.BytesRoundTrip | src/types.rs:48-53 | every 13-byte payload is the serialisation of its decoding |
| Types.AsU8SliceInjective | src/types.rs:48-53 | distinct reports have distinct serialisations |
| Types.FromPpmTimeIsZeroReport | src/types.rs:31-53 | the serialised `from_ppm_time()` is 13 zero bytes |
| Hid.ItemTypeOf | src/hid.rs:5-45 | the item type whose bType code is the given one |
| Hid.SizeCode | src/hid.rs:5-45 | bSize is a 2-bit code |
| Hid.DataOf | src/hid.rs:5-45 | 0, 1, 2 or 4 data bytes become item data that encodes back to them, with the matching bSize |
| Hid.PrefixDecodes | src/hid.rs:5-45 | a short item's prefix byte holds its tag, type and size, and is never the long-item prefix 0xFE |
| Hid.ParseItem | src/hid.rs:5-45 | a parsed item's encoding is a prefix of the input; parsing fails as long-item exactly at 0xFE, and as truncated exactly when fewer data bytes remain than bSize asks for |
| Hid.PrefixFields | src/hid.rs:5-45 | a byte is its tag, type and size fields side by side; the fields (15, 3, 2) are 0xFE |
| Hid.ParseEncodedItem | src/hid.rs:5-45 | parsing an encoded item followed by anything gives the item and its length |
| Hid.ParseEncodeItems | src/hid.rs:5-45 | parsing the encoding of items gives the items |
| Hid.EncodeParseItems | src/hid.rs:5-45 | a byte string that parses is the encoding of what it parses to |
| Hid.EncodeItemsAppend | src/hid.rs:5-45 | encoding distributes over concatenation of item sequences |
| Hid.Step | src/hid.rs:8-44 | each item changes the number of open collections by its nesting, +1, -1 or 0 |
| Hid.WalkDepth | src/hid.rs:8-44 | while nesting stays valid, the depth counter equals the number of open collections |
| Hid.WalkAppend | src/hid.rs:5-45 | reading `a + b` is reading `b` from the state `a` leaves |
| Hid.ReadDescriptor | src/hid.rs:5-45 | a definition, the reference reading of a descriptor: parse, then walk. Its facts about `REPORT_DESCR` are in `Hid.ReportDescriptorSize` and `Hid.GetReportDescriptor` |
| Hid.ReportDescriptorEncoding | src/hid.rs:5-45 | `REPORT_DESCR` is the encoding of the 35 items its comments name (0x36 read as Slider, not Dial) |
| Hid.ReportDescriptorWalk | src/hid.rs:5-45 | `REPORT_DESCR` parses to those items. Its Input fields are 16x4 and 16x2 bits in -500..500 (0x0C,0xFE and 0xF4,0x01 as signed little-endian), 1x6 in 0..1, and 2x1 of constant padding. Its 2 collections balance |
| Hid.ReportDescriptorSize | src/hid.rs:19-56 | the declared fields total 104 bits: 8 times the 13-byte report and 8 times the endpoint's packet size, whatever interface and address are allocated |
| Hid.ReportDescrLen | src/hid.rs:74 | `REPORT_DESCR.len() as u16` is 72 = 0x48 |
| Hid.DescriptorLengthBytes | src/hid.rs:83-84 | wDescriptorLength is the length low byte first: 0x48, 0x00 |
| Hid.ClassDescriptorPayload | src/hid.rs:77-85 | 7 bytes: bcdHID 0x0101 (HID 1.01), country code 0, one class descriptor, whose type byte is Report (0x22) and whose last two are wDescriptorLength |
| Hid.HidDescriptor | src/hid.rs:119-132 | exactly 09 21 01 01 00 01 22 48 00 |
| Hid.Framed | src/hid.rs:75-86 | bLength is the framed length, then the type, then the body |
| Hid.NewHidClass | src/hid.rs:52-58 | the allocated interface and endpoint, with 13-byte packets every 1 ms |
| Hid.ConfigurationDescriptors | src/hid.rs:66-91 | interface (class 0x03, subclass 0x00, protocol 0x05), then the HID descriptor, which framed is the GET_DESCRIPTOR(0x21) answer, then the endpoint |
| Hid.DescriptorTypeIndex | src/hid.rs:115 | wValue's high byte is the descriptor type and its low byte the index |
| Hid.ControlOut | src/hid.rs:93-107 | never accepts; rejects exactly the class requests to this interface |
| Hid.ControlIn | src/hid.rs:109-169 | accepts exactly interface GET_DESCRIPTOR for 0x21 or 0x22 and GET_REPORT to this interface; rejects exactly the other class requests to this interface |
| Hid.GetHidDescriptor | src/hid.rs:112-135 | GET_DESCRIPTOR(0x21) answers the 9 HID-descriptor bytes, whose last two give `REPORT_DESCR`'s length |
| Hid.GetReportDescriptor | src/hid.rs:136-139 | GET_DESCRIPTOR(0x22), for any interface index, answers exactly `REPORT_DESCR`, and those bytes read as the joystick's four Input fields |
| Hid.GetReport | src/hid.rs:157-163 | GET_REPORT answers four zero bytes, fewer than the 13-byte report |
| Hid.StandardRequests | src/hid.rs:112-155 | every other standard request is ignored by both handlers |
| Hid.ForeignRequests | src/hid.rs:93-103 | non-standard requests not for this interface's class are ignored by both handlers |
| App.ProcessChannel | src/main.rs:240-243 | `set_center` (when the button is low) then `get` on a 12-bit reading succeeds, reads in `0..=1000` and keeps the channel within 12 bits |
| App.ProcessChannelCases | src/main.rs:240-243 | the first reading opens the envelope at 500. A held button commits the reading as centre, and one inside the envelope then reads 500. Otherwise a committed channel is unchanged and an ongoing one widens |
| App.Transfer.constructor | src/main.rs:142 | `Transfer::init_peripheral_to_memory`: the transfer starts out owning the first buffer |
| App.Transfer.Convert | src/main.rs:124-142 | a completed scan leaves the samples in the transfer's buffer |
| App.Transfer.NextTransfer | src/main.rs:277-279 | hands back the filled buffer and keeps the given one |
| App.Resources.Init | src/main.rs:139-142 | `analog_inputs` is six times 1500, every channel uncalibrated; two fresh zeroed buffers, one in the transfer and one held; the invariant holds |
| App.Resources.ConversionComplete | src/main.rs:127 | 12-bit samples written by a scan keep the invariant |
| App.Resources.Dma | src/main.rs:276-284 | `analog_inputs` becomes the filled buffer's contents; the held buffer goes to the transfer; the slot holds the filled buffer; exactly one buffer is held |
| App.Resources.UpdateChannel | src/main.rs:240-243 | channel `i` becomes `ProcessChannel`'s state, in place, and the axis is its value; the other channels are untouched |
| App.Resources.ReadAnalog | src/main.rs:233-252 | channels 0 and 1 become `ProcessChannel` of their reading; axes 2 to 5 stay 0 and their channels are untouched; the buttons are the pin levels |
| App.ReadButtons | src/main.rs:247-251 | button `i` is pressed exactly when pin `i` reads low |
| App.UsbReport | src/main.rs:304-308 | the payload the task body would write is 13 zero bytes: the serialised `from_ppm_time()`, and the endpoint's packet size for any allocation |

## Left out

- RTIC scheduling is not modelled: task priorities, `lock`, `spawn`/`spawn_after`, the monotonic timer and the `polling` task. Each task body is one atomic step, because timing and preemption are outside a sequential model.
- Peripheral bring-up is not modelled: clocks, GPIO, ADC and DMA configuration, `Transfer::start` and `start_conversion`. The whole scan is `Transfer.Convert`, because the drivers cannot be seen. The 12-bit bound on samples (src/main.rs:127) is stated as the precondition of `App.Resources.ConversionComplete`.
- `next_transfer` is total in the model. Its error result and the `unwrap` on it are left out, because the driver's error conditions cannot be seen.
- The `take().unwrap()` on `dma`'s slot cannot fail. The invariant `App.Resources.Valid` keeps the slot full between runs.
- USB device plumbing is not modelled: `UsbDeviceBuilder`, `poll`, `usb_tx`/`usb_rx`, `EndpointIn::write`, `HIDClass::write`, and truncation of answers to wLength by `accept_with`. These are library internals.
- `DescriptorWriter`'s framing is not modelled. `Hid.Framed` is the one framing assumed for the HID descriptor. The interface and endpoint descriptors are kept as structured values, not bytes.
- Interface numbers and endpoint addresses come from the allocator. They are parameters of `Hid.NewHidClass`.
- The debug breakpoint is not modelled (src/hid.rs:118). With no debugger attached, `bkpt` faults the MCU before GET_DESCRIPTOR(0x21) is answered. `Hid.ControlIn` describes the answer as if the breakpoint just returned. Neither are RTT printing or the panic handlers (src/main.rs:8-20).
- In a release build, `u16` overflow wraps and the debug assertions are not checked. The model has only the debug-build traps. `Inputs.GetInRange` shows that none of them fires for 12-bit data, and on that data both builds agree.
- The walk of a report descriptor keeps only the four globals that shape an Input field. It ignores Usage Page and every local item (the usages, Usage Minimum and Usage Maximum), and `REPORT_DESCR` has three Usage Pages and ten local items. Those items are checked only at the item level: `Hid.ReportDescriptorEncoding` and `Hid.ReportDescriptorWalk` state that the descriptor is the encoding of the listed items, usages included, and parses back to them.
- The walk does not track Push and Pop of the global state, and the parser rejects a long item as `LongItem`. `REPORT_DESCR` contains no Push, Pop or long item.
- Not part of this model: src/radio.rs, the unused `FlySkyFsi6` and `TwoWay` types, and `ButtonState`. None of them is used by the firmware.
- Inputs.Get: the in-place update of `*self` is modelled as a returned new state. `App.Resources.UpdateChannel` writes that state back into the `linear_inputs` array.
