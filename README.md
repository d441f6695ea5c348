# Adafruit Seesaw gamepad driver — a verified model

This project models the Linux input driver for the Adafruit Mini I2C
Gamepad, which talks to a Seesaw co-processor over I2C. The driver addresses
every Seesaw register by a module base byte and a function byte. It reads a
register by writing the two address bytes and then receiving the value in
one combined `i2c_transfer`. It writes a register with a single
`i2c_master_send` that holds the address bytes and then the big-endian value.

On probe, the driver does the following, stopping at the first error:

- a software reset;
- a 10 to 15 ms delay;
- allocation of its private struct;
- a read of the one-byte hardware ID;
- three 32-bit writes that make the six button pins inputs with pull-ups.

On each poll it reads three registers:

- the 32 GPIO levels, which are active-low, so they are inverted;
- the X channel of the ADC, which is reversed against 1023;
- the Y channel of the ADC.

If the reads succeed, the poll reports the two axes, then one key event per
pin of the button mask through the sparse keymap, then a sync marker.

The modules follow the driver's layers:

- `Bytes`: fixed-width integers, big-endian encode and decode, bits of a word.
- `I2c`: the bus client. The peripheral is replaced by a scripted
  `answer: nat -> Reply` for the k-th transaction. Every transaction and
  delay is recorded in a `trace`.
- `Input`: the input device. It has a keymap, and each report call the
  driver makes on it is appended to a log.
- `Transport`: the three register helpers.
- `Gamepad`: register and button constants, the keymap, the sample decode,
  and the events of a sample.
- `Session`: `seesaw_read_data`, `seesaw_poll` and the bus part of
  `seesaw_probe`. Each is written as a method over the client and is proved
  against a function that gives the whole run. Lemmas about those functions
  state the fail-fast order, the decode, and the bytes on the wire.

Notes on the driver's behaviour, which the model keeps:

- The poll reports ABS_X and ABS_Y before the key events, and the sync
  marker last.
- The register helpers map any non-negative transport status to 0. They
  never compare it with a byte count.
- The hardware ID is read but not checked.

## Model

| member | source | states |
|---|---|---|
| Bytes.BitOfPow2 | linux/adafruit_seesaw.c:63-66 | `BIT(k)` has bit k set and every other bit clear |
| Bytes.TruncateU16 | linux/adafruit_seesaw.c:168 | storing an int in a u16 field keeps it when it is in range, and otherwise keeps it modulo 2^16 |
| Bytes.Not32 | linux/adafruit_seesaw.c:157 | every one of the 32 bits of `~v` is the opposite of the same bit of v |
| Bytes.Not32Involutive | linux/adafruit_seesaw.c:157 | `~~v == v` on a u32 |
| Bytes.BE32RoundTrip | linux/adafruit_seesaw.c:138 | decoding the big-endian bytes of a u32 gives it back |
| Bytes.ToBE32RoundTrip | linux/adafruit_seesaw.c:150-157 | four wire bytes are recovered from the u32 be32_to_cpu makes of them |
| Bytes.BE16RoundTrip | linux/adafruit_seesaw.c:168 | decoding the big-endian bytes of a u16 gives it back |
| Bytes.ToBE16RoundTrip | linux/adafruit_seesaw.c:175 | two wire bytes are recovered from the u16 be16_to_cpu makes of them |
| I2c.WithRead | linux/adafruit_seesaw.c:104 | OR-ing I2C_M_RD into the flags sets the read bit, and no other bit changes |
| I2c.Fit | linux/adafruit_seesaw.c:105-109 | the receive buffer has exactly `count` bytes: the first `count` bytes sent when the peripheral sent at least that many, otherwise all it sent followed by zeros |
| I2c.Client.Transfer | linux/adafruit_seesaw.c:109-110 | one combined transaction is appended to the trace; it returns the next reply's status, and its buffer holds that reply's bytes |
| I2c.Client.MasterSend | linux/adafruit_seesaw.c:124 | one send of the frame to the client's address is appended to the trace and it returns the next reply's status |
| I2c.Client.USleepRange | linux/adafruit_seesaw.c:220 | the delay is recorded in the trace and consumes no reply |
| Input.LookupSpec | linux/adafruit_seesaw.c:198-199 | a keymap lookup succeeds exactly for scancodes that have an entry, and yields that entry's keycode |
| Input.LookupFirst | linux/adafruit_seesaw.c:198-199 | a lookup finds the first entry with the scancode |
| Input.InputDev.ReportAbs | linux/adafruit_seesaw.c:193-194 | appends one absolute-axis event to the event log |
| Input.InputDev.ReportKeymapEvent | linux/adafruit_seesaw.c:198-202 | appends the key event for the scancode (KEY_UNKNOWN when it is not mapped) and returns whether the scancode is mapped |
| Input.InputDev.Sync | linux/adafruit_seesaw.c:205 | appends the sync marker |
| Transport.Status | linux/adafruit_seesaw.c:112-115 | a helper returns a negative status unchanged and anything else as 0 |
| Transport.ReadMessagesShape | linux/adafruit_seesaw.c:93-108 | a register read is two messages to the client address: a 2-byte address write, then a read of `count` bytes with I2C_M_RD set |
| Transport.WriteU32FrameRoundTrip | linux/adafruit_seesaw.c:136-138 | the u32 write frame has 6 bytes, the two address bytes first, and its last four decode big-endian to the value |
| Transport.RegisterRead | linux/adafruit_seesaw.c:89-116 | issues exactly one combined transfer of the read messages; returns the mapped status and the `count` received bytes |
| Transport.RegisterWriteU8 | linux/adafruit_seesaw.c:118-129 | issues exactly one send of the u8 frame and returns the mapped status |
| Transport.RegisterWriteU32 | linux/adafruit_seesaw.c:131-144 | issues exactly one send of the u32 frame and returns the mapped status |
| Gamepad.CalibrateX | linux/adafruit_seesaw.c:164-168 | X is 1023 minus the raw reading when that reading is at most 1023, and wraps to 65536 + 1023 − raw above it |
| Gamepad.CalibrateXInvolutive | linux/adafruit_seesaw.c:164-168 | reversing the X axis twice gives the raw reading back |
| Gamepad.CalibrateXRange | linux/adafruit_seesaw.c:164-168 | X lies in 0..1023 exactly when the raw reading does |
| Gamepad.CalibrateXEnds | linux/adafruit_seesaw.c:164-168 | raw reading 0 becomes 1023, and raw reading 1023 becomes 0 |
| Gamepad.ButtonStateActiveLow | linux/adafruit_seesaw.c:157 | a button reads as pressed exactly when its GPIO line is low |
| Gamepad.ButtonMaskBit | linux/adafruit_seesaw.c:63-66 | the mask has bits 0, 1, 2, 5, 6 and 16 set and no other bit below 32 |
| Gamepad.SetBitsSpec | linux/adafruit_seesaw.c:196-197 | the pins visited are exactly the set bits below the width, each once, in ascending order |
| Gamepad.ButtonMaskPins | linux/adafruit_seesaw.c:196-197 | the loop over the mask visits SELECT, B, Y, A, X and START, in that order |
| Gamepad.ButtonKeycodes | linux/adafruit_seesaw.c:79-87 | A, B, X, Y, START and SELECT map to BTN_SOUTH, BTN_EAST, BTN_NORTH, BTN_WEST, BTN_START and BTN_SELECT |
| Gamepad.KeymapCoversMask | linux/adafruit_seesaw.c:63-87 | a pin is in the mask exactly when the keymap has an entry for it, so no pin of the mask is reported as unknown |
| Gamepad.KeyEvents | linux/adafruit_seesaw.c:196-203 | one key event per visited pin, in pin order, each pressed when the pin's bit of the button state is set |
| Gamepad.KeyEventsStep | linux/adafruit_seesaw.c:196-203 | visiting one more pin adds its key event exactly when its mask bit is set |
| Gamepad.GamepadKeyEvents | linux/adafruit_seesaw.c:79-87 | the six button pins produce their six keycodes, each with the pin's pressed state |
| Gamepad.PollEventsForGamepad | linux/adafruit_seesaw.c:193-205 | a sample becomes exactly nine report calls: ABS_X, ABS_Y, SELECT, B, Y, A, X, START, then sync |
| Gamepad.OnlyButtonXPressed | linux/adafruit_seesaw.c:157 | GPIO bytes FF FF FF BF give button state 0x40, in which only X among the mask's pins is pressed |
| Session.ReadData | linux/adafruit_seesaw.c:146-178 | the trace, the return value and the struct afterwards are those given by ReadDataSpec for the replies the bus gave, and exactly one reply is consumed per read issued |
| Session.ReadDataFailFast | linux/adafruit_seesaw.c:152-177 | the reads are a prefix of GPIO, X, Y, and they stop at the first failure; 0 is returned exactly when all three succeed, otherwise the failing read's negative status |
| Session.ReadDataDecodes | linux/adafruit_seesaw.c:157-175 | on success the struct is the inverted GPIO word, the reversed X reading and the Y reading, whatever it held before |
| Session.ReadDataFailureKeeps | linux/adafruit_seesaw.c:154-174 | a failed run leaves y unassigned, and a failed GPIO read leaves the whole struct unassigned |
| Session.PollReadsWire | linux/adafruit_seesaw.c:152-172 | the poll reads 4 bytes at 01/04, 2 bytes at 09/15, and 2 bytes at 09/16 |
| Session.ReportButtons | linux/adafruit_seesaw.c:196-203 | the loop appends the key events of the mask's pins in ascending order, and nothing else |
| Session.Poll | linux/adafruit_seesaw.c:180-206 | a failed read reports no events; otherwise the two axes, the mask's key events and the sync marker are appended; the trace and the replies consumed are those of the read |
| Session.PollOnlyButtonX | linux/adafruit_seesaw.c:146-205 | a successful poll whose GPIO bytes have only line 6 low makes the report calls for the two axes, X pressed, the five other buttons released, and the sync marker |
| Session.Probe | linux/adafruit_seesaw.c:208-250 | the trace and the return value are those given by ProbeSpec for the replies and the allocation outcome, and one reply is consumed per transaction issued (the delay consumes none) |
| Session.ProbeFailFast | linux/adafruit_seesaw.c:214-250 | the probe issues a prefix of the handshake and stops at the first failure. It returns 0 exactly when the allocation and all five transactions succeed, and then the whole handshake was issued. A run that stops after the delay is exactly a failed allocation after a good reset, and returns -ENOMEM |
| Session.HandshakeWire | linux/adafruit_seesaw.c:214-248 | on the wire: 00 7F FF, a 10000 to 15000 µs delay, a 1-byte read at 00 01, then 00 01 00 67 written to GPIO registers 03, 0B and 05 |

## Left out

- The repository's earlier driver, `linux/adafruit-seesaw.c`, is not modelled. It registers a hard-coded board device at address 0x50 through global adapter and client pointers, and its probe only resets the chip and reads the hardware ID with unchecked sends and a receive.
- The input-device setup after the GPIO configuration is not modelled: allocation, names, axis parameters, keymap setup, polling intervals and registration (lines 252-291). Neither are the device-ID tables and the module boilerplate (lines 294-318). They only hand parameters to kernel services.
- Session.Probe: stops after the third GPIO write. Its return value is the probe's return value up to that point only.
- The private struct allocation is the parameter `allocOk` of Session.Probe, since its failure comes from the kernel allocator.
- The driver's logging is not modelled. This covers the hardware-ID debug message and the rate-limited errors for a failed poll or an unmapped scancode. The hardware ID that is read is therefore discarded.
- The delay is recorded with its bounds and has no duration. Real time and the host's poll timer are not modelled.
- The peripheral and the adapter are replaced by the scripted replies. A transfer's status is taken from the reply as it is, so partial completion inside one `i2c_transfer` is not modelled.
- I2c.Fit: after a short transfer, the bytes of the buffer that were not received are modelled as zeros. In the driver they are whatever the buffer held before: uninitialised for the GPIO, X and hardware-ID reads, and the X reading's bytes for the Y read, since `adc_data` is reused.
- Session.Poll starts from a zeroed `struct seesaw_data`. In the driver it is uninitialised, but its contents are never reported, because a failed read returns before any event.
- Input.InputDev.ReportKeymapEvent: the event log records the driver's own report calls (input_report_abs, sparse_keymap_report_event, input_sync), not the event stream the kernel delivers. The delivered stream also holds, from the kernel's sparse-keymap helper, an MSC_SCAN event and a sync after every key, and a release plus a second sync for a pressed unknown scancode. The input core also drops unchanged key states and ABS values that are unchanged or within the fuzz. None of this is modelled.
- The `(long *)&SEESAW_BUTTON_MASK` cast in the loop over the mask bits is modelled as reading the 32 bits of the mask. This matches little-endian hosts. On a 64-bit big-endian host the cast would read other memory.
- Concurrency between poll and probe is not modelled. The host serialises them.
