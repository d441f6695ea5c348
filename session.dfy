/**
 * The driver's two bus sessions: probing the gamepad (software reset, a
 * delay, the hardware-ID read and the GPIO configuration of the button
 * pins) and one poll (three register reads, then the input events). Each is
 * a method over the I2C client, proved against a function that gives the
 * whole run (the trace entries, the return value, the decoded sample) from
 * the replies the bus gives; the lemmas state what those runs promise.
 */
module Session {
  import opened Bytes
  import opened I2c
  import opened Input
  import opened Transport
  import opened Gamepad

  /** ENOMEM of the kernel's errno table. */
  const ENOMEM: int := 12

  /** struct seesaw_data, filled in place by seesaw_read_data. */
  class SeesawData {
    var buttonState: U32
    var x: U16
    var y: U16

    constructor (init: Sample)
      ensures Get() == init
    {
      buttonState := init.buttonState;
      x := init.x;
      y := init.y;
    }

    /** The three fields as a value. */
    function Get(): Sample
      reads this
    {
      Sample(buttonState, x, y)
    }
  }

  /** The read of the GPIO levels: 4 bytes from GPIO_BULK. */
  function GpioRead(addr: nat, flags: nat): BusOp
  {
    ReadOp(addr, flags, GPIO_BASE, GPIO_BULK, 4)
  }

  /** The read of the X channel: 2 bytes from ADC channel register ADC_OFFSET + ANALOG_X. */
  function XRead(addr: nat, flags: nat): BusOp
  {
    ReadOp(addr, flags, ADC_BASE, ADC_OFFSET + ANALOG_X, 2)
  }

  /** The read of the Y channel: 2 bytes from ADC channel register ADC_OFFSET + ANALOG_Y. */
  function YRead(addr: nat, flags: nat): BusOp
  {
    ReadOp(addr, flags, ADC_BASE, ADC_OFFSET + ANALOG_Y, 2)
  }

  /** The three register reads of a complete poll, in the order they are issued. */
  function PollReads(addr: nat, flags: nat): seq<BusOp>
  {
    [GpioRead(addr, flags), XRead(addr, flags), YRead(addr, flags)]
  }

  /** What one seesaw_read_data does: the trace entries, its return value and the struct afterwards. */
  datatype ReadRun = ReadRun(ops: seq<BusOp>, ret: int, data: Sample)

  /**
   * seesaw_read_data when the bus answers transaction k + j with answer(k + j)
   * and the struct holds `before`: each read that fails ends the run with its
   * status, leaving the fields that were not yet assigned as they were.
   */
  function ReadDataSpec(addr: nat, flags: nat, answer: nat -> Reply, k: nat, before: Sample): ReadRun
  {
    var steps := PollReads(addr, flags);
    var gpio := answer(k);
    if Status(gpio.status) != 0 then ReadRun(steps[..1], Status(gpio.status), before)
    else
      var s1 := before.(buttonState := ButtonState(Fit(gpio.data, 4)));
      var adcX := answer(k + 1);
      if Status(adcX.status) != 0 then ReadRun(steps[..2], Status(adcX.status), s1)
      else
        var s2 := s1.(x := CalibrateX(BE16(Fit(adcX.data, 2))));
        var adcY := answer(k + 2);
        if Status(adcY.status) != 0 then ReadRun(steps, Status(adcY.status), s2)
        else ReadRun(steps, 0, s2.(y := BE16(Fit(adcY.data, 2))))
  }

  /** One more step of a planned sequence of bus operations. */
  lemma TraceExtend(t0: seq<BusOp>, plan: seq<BusOp>, n: nat)
    requires n < |plan|
    ensures t0 + plan[..n] + [plan[n]] == t0 + plan[..n + 1]
    ensures n == 0 ==> t0 + plan[..n] == t0
    ensures n + 1 == |plan| ==> plan[..n + 1] == plan
  {
    assert plan[..n] + [plan[n]] == plan[..n + 1];
  }

  /** seesaw_read_data */
  method ReadData(client: Client, data: SeesawData) returns (ret: int)
    modifies client, data
    ensures var run := ReadDataSpec(client.addr, client.flags, client.answer, old(client.served), old(data.Get()));
      && client.trace == old(client.trace) + run.ops
      && client.served == old(client.served) + |run.ops|
      && ret == run.ret
      && data.Get() == run.data
  {
    ghost var k := client.served;
    ghost var t0 := client.trace;
    ghost var steps := PollReads(client.addr, client.flags);
    var gpio, adc;
    ret, gpio := RegisterRead(client, GPIO_BASE, GPIO_BULK, 4);
    TraceExtend(t0, steps, 0);
    if ret != 0 {
      return;
    }
    data.buttonState := Not32(BE32(gpio));

    ret, adc := RegisterRead(client, ADC_BASE, ADC_OFFSET + ANALOG_X, 2);
    TraceExtend(t0, steps, 1);
    if ret != 0 {
      return;
    }
    data.x := TruncateU16(JOYSTICK_MAX_AXIS - BE16(adc));

    ret, adc := RegisterRead(client, ADC_BASE, ADC_OFFSET + ANALOG_Y, 2);
    TraceExtend(t0, steps, 2);
    if ret != 0 {
      return;
    }
    data.y := BE16(adc);
    return 0;
  }

  /**
   * A read run issues a prefix of the three poll reads and stops at the first
   * failure: every read before the last one succeeded, the run returns 0
   * exactly when all three did, and otherwise it returns the failing read's
   * negative status.
   */
  lemma ReadDataFailFast(addr: nat, flags: nat, answer: nat -> Reply, k: nat, before: Sample)
    ensures var run := ReadDataSpec(addr, flags, answer, k, before);
      && 1 <= |run.ops| <= 3
      && run.ops == PollReads(addr, flags)[..|run.ops|]
      && (|run.ops| >= 2 ==> answer(k).status >= 0)
      && (|run.ops| == 3 ==> answer(k + 1).status >= 0)
      && (run.ret == 0 <==> |run.ops| == 3 && answer(k).status >= 0 && answer(k + 1).status >= 0 && answer(k + 2).status >= 0)
      && (run.ret != 0 ==> run.ret < 0 && run.ret == answer(k + |run.ops| - 1).status)
  {
    var run := ReadDataSpec(addr, flags, answer, k, before);
    assert PollReads(addr, flags)[..3] == PollReads(addr, flags);
  }

  /**
   * A successful run decodes the three replies and nothing else: the
   * inverted GPIO word, the reversed X reading and the Y reading, whatever
   * the struct held before.
   */
  lemma ReadDataDecodes(addr: nat, flags: nat, answer: nat -> Reply, k: nat, before: Sample)
    requires ReadDataSpec(addr, flags, answer, k, before).ret == 0
    ensures ReadDataSpec(addr, flags, answer, k, before).data
      == Sample(ButtonState(Fit(answer(k).data, 4)), CalibrateX(BE16(Fit(answer(k + 1).data, 2))), BE16(Fit(answer(k + 2).data, 2)))
  {
  }

  /** A failed run leaves y as it was, and a failed GPIO read leaves the whole struct. */
  lemma ReadDataFailureKeeps(addr: nat, flags: nat, answer: nat -> Reply, k: nat, before: Sample)
    ensures var run := ReadDataSpec(addr, flags, answer, k, before);
      && (run.ret != 0 ==> run.data.y == before.y)
      && (|run.ops| == 1 ==> run.data == before)
  {
  }

  /** The register addresses of a poll on the wire: GPIO 0x01/0x04, ADC 0x09/0x15 and 0x09/0x16. */
  lemma PollReadsWire(addr: nat, flags: nat)
    ensures PollReads(addr, flags) == [
      BusOp.Transfer([Msg(addr, flags, 2, [0x01, 0x04]), Msg(addr, WithRead(flags), 4, [])]),
      BusOp.Transfer([Msg(addr, flags, 2, [0x09, 0x15]), Msg(addr, WithRead(flags), 2, [])]),
      BusOp.Transfer([Msg(addr, flags, 2, [0x09, 0x16]), Msg(addr, WithRead(flags), 2, [])])
    ]
  {
  }

  /** The struct seesaw_poll starts from; its contents matter only to a failed read, whose sample is dropped. */
  const UNREAD: Sample := Sample(0, 0, 0)

  /**
   * The for_each_set_bit loop of seesaw_poll: a keymap event for each pin of
   * BUTTON_MASK, in ascending pin order, pressed when the pin's bit of
   * `state` is set.
   */
  method ReportButtons(input: InputDev, state: U32)
    modifies input
    ensures input.events == old(input.events) + KeyEvents(input.keymap, state, SetBits(BUTTON_MASK, 32))
  {
    var i := 0;
    while i < 32
      invariant i <= 32
      invariant input.events == old(input.events) + KeyEvents(input.keymap, state, SetBits(BUTTON_MASK, i))
    {
      if Bit(BUTTON_MASK, i) == 1 {
        var found := input.ReportKeymapEvent(i, Pressed(state, i));
      }
      KeyEventsStep(input.keymap, state, BUTTON_MASK, i);
      i := i + 1;
    }
  }

  /** Regrouping the events of a poll after those already reported. */
  lemma Regroup(e0: seq<InputEvent>, ax: InputEvent, ay: InputEvent, keys: seq<InputEvent>, sync: InputEvent)
    ensures e0 + [ax] + [ay] + keys + [sync] == e0 + ([ax, ay] + keys + [sync])
  {
  }

  /**
   * seesaw_poll: when the read fails nothing is reported; otherwise both
   * axes, one keymap event per pin of BUTTON_MASK, and the sync marker.
   */
  method Poll(input: InputDev, client: Client)
    modifies input, client
    ensures var run := ReadDataSpec(client.addr, client.flags, client.answer, old(client.served), UNREAD);
      && client.trace == old(client.trace) + run.ops
      && client.served == old(client.served) + |run.ops|
      && input.events == old(input.events) + (if run.ret != 0 then [] else PollEvents(input.keymap, run.data))
  {
    ghost var run := ReadDataSpec(client.addr, client.flags, client.answer, client.served, UNREAD);
    var data := new SeesawData(UNREAD);
    var err := ReadData(client, data);
    assert err == run.ret && data.Get() == run.data;
    if err != 0 {
      return;
    }

    ghost var e0 := input.events;
    input.ReportAbs(ABS_X, data.x);
    input.ReportAbs(ABS_Y, data.y);
    ReportButtons(input, data.buttonState);
    input.Sync();

    ghost var keys := KeyEvents(input.keymap, data.buttonState, SetBits(BUTTON_MASK, 32));
    assert input.events == e0 + [Abs(ABS_X, data.x)] + [Abs(ABS_Y, data.y)] + keys + [InputEvent.Sync];
    assert PollEvents(input.keymap, run.data) == [Abs(ABS_X, data.x), Abs(ABS_Y, data.y)] + keys + [InputEvent.Sync];
    Regroup(e0, Abs(ABS_X, data.x), Abs(ABS_Y, data.y), keys, InputEvent.Sync);
  }

  /** What seesaw_probe's bus part does: the trace entries and the return value. */
  datatype ProbeRun = ProbeRun(ops: seq<BusOp>, ret: int)

  /** The bytes of the software-reset write: 0xFF to STATUS_SWRST. */
  function ResetFrame(): seq<Byte>
  {
    WriteU8Frame(STATUS_BASE, STATUS_SWRST, 0xFF)
  }

  /**
   * The complete probe handshake: reset, a 10 to 15 ms delay, the
   * hardware-ID read, then the button pins made inputs, given pull-ups and
   * driven high (which selects pull-up rather than pull-down).
   */
  function Handshake(addr: nat, flags: nat): seq<BusOp>
  {
    [ Send(addr, ResetFrame()),
      Sleep(10 * MSEC_PER_USEC, 15 * MSEC_PER_USEC),
      ReadOp(addr, flags, STATUS_BASE, STATUS_HW_ID, 1),
      Send(addr, WriteU32Frame(GPIO_BASE, GPIO_DIRCLR_BULK, BUTTON_MASK)),
      Send(addr, WriteU32Frame(GPIO_BASE, GPIO_PULLENSET, BUTTON_MASK)),
      Send(addr, WriteU32Frame(GPIO_BASE, GPIO_BULK_SET, BUTTON_MASK)) ]
  }

  /**
   * seesaw_probe up to the input-device setup, when the bus answers
   * transaction k + j with answer(k + j) and the private-struct allocation
   * succeeds exactly when `allocOk` holds.
   */
  function ProbeSpec(addr: nat, flags: nat, answer: nat -> Reply, k: nat, allocOk: bool): ProbeRun
  {
    var h := Handshake(addr, flags);
    var reset := Status(answer(k).status);
    if reset != 0 then ProbeRun(h[..1], reset)
    else if !allocOk then ProbeRun(h[..2], -ENOMEM)
    else
      var hwId := Status(answer(k + 1).status);
      if hwId != 0 then ProbeRun(h[..3], hwId)
      else
        var dirclr := Status(answer(k + 2).status);
        if dirclr != 0 then ProbeRun(h[..4], dirclr)
        else
          var pullen := Status(answer(k + 3).status);
          if pullen != 0 then ProbeRun(h[..5], pullen)
          else ProbeRun(h, Status(answer(k + 4).status))
  }

  /** seesaw_probe, lines up to the input-device setup; the hardware ID read is only logged. */
  method Probe(client: Client, allocOk: bool) returns (ret: int)
    modifies client
    ensures var run := ProbeSpec(client.addr, client.flags, client.answer, old(client.served), allocOk);
      && client.trace == old(client.trace) + run.ops
      && client.served == old(client.served) + |run.ops| - (if |run.ops| >= 2 then 1 else 0)
      && ret == run.ret
  {
    ghost var t0 := client.trace;
    ghost var h := Handshake(client.addr, client.flags);
    ret := RegisterWriteU8(client, STATUS_BASE, STATUS_SWRST, 0xFF);
    assert client.trace == t0 + h[..0] + [Send(client.addr, ResetFrame())];
    TraceExtend(t0, h, 0);
    if ret != 0 {
      return;
    }

    client.USleepRange(10 * MSEC_PER_USEC, 15 * MSEC_PER_USEC);
    assert client.trace == t0 + h[..1] + [Sleep(10 * MSEC_PER_USEC, 15 * MSEC_PER_USEC)];
    TraceExtend(t0, h, 1);

    if !allocOk {
      return -ENOMEM;
    }

    var hardwareId;
    ret, hardwareId := RegisterRead(client, STATUS_BASE, STATUS_HW_ID, 1);
    assert client.trace == t0 + h[..2] + [ReadOp(client.addr, client.flags, STATUS_BASE, STATUS_HW_ID, 1)];
    TraceExtend(t0, h, 2);
    if ret != 0 {
      return;
    }

    ret := RegisterWriteU32(client, GPIO_BASE, GPIO_DIRCLR_BULK, BUTTON_MASK);
    assert client.trace == t0 + h[..3] + [Send(client.addr, WriteU32Frame(GPIO_BASE, GPIO_DIRCLR_BULK, BUTTON_MASK))];
    TraceExtend(t0, h, 3);
    if ret != 0 {
      return;
    }
    ret := RegisterWriteU32(client, GPIO_BASE, GPIO_PULLENSET, BUTTON_MASK);
    assert client.trace == t0 + h[..4] + [Send(client.addr, WriteU32Frame(GPIO_BASE, GPIO_PULLENSET, BUTTON_MASK))];
    TraceExtend(t0, h, 4);
    if ret != 0 {
      return;
    }
    ret := RegisterWriteU32(client, GPIO_BASE, GPIO_BULK_SET, BUTTON_MASK);
    assert client.trace == t0 + h[..5] + [Send(client.addr, WriteU32Frame(GPIO_BASE, GPIO_BULK_SET, BUTTON_MASK))];
    TraceExtend(t0, h, 5);
    if ret != 0 {
      return;
    }
  }

  /**
   * A probe run issues a prefix of the handshake and stops at the first
   * failure; it succeeds exactly when the allocation and all five bus
   * transactions do, and a failed allocation after a good reset returns
   * -ENOMEM with no further traffic.
   */
  lemma ProbeFailFast(addr: nat, flags: nat, answer: nat -> Reply, k: nat, allocOk: bool)
    ensures var run := ProbeSpec(addr, flags, answer, k, allocOk);
      && 1 <= |run.ops| <= 6
      && run.ops == Handshake(addr, flags)[..|run.ops|]
      && run.ret <= 0
      && (run.ret == 0 <==> allocOk && answer(k).status >= 0 && answer(k + 1).status >= 0
                            && answer(k + 2).status >= 0 && answer(k + 3).status >= 0 && answer(k + 4).status >= 0)
      && (run.ret == 0 ==> run.ops == Handshake(addr, flags))
      && (answer(k).status >= 0 && !allocOk ==> run.ret == -ENOMEM && |run.ops| == 2)
      && (|run.ops| == 2 ==> !allocOk && run.ret == -ENOMEM)
      && (|run.ops| >= 2 ==> answer(k).status >= 0)
      && (|run.ops| >= 3 ==> allocOk)
      && (|run.ops| >= 4 ==> answer(k + 1).status >= 0)
      && (|run.ops| >= 5 ==> answer(k + 2).status >= 0)
      && (|run.ops| == 6 ==> answer(k + 3).status >= 0)
      && (run.ret != 0 && |run.ops| != 2 ==> run.ret == answer(k + (if |run.ops| == 1 then 0 else |run.ops| - 2)).status)
  {
    var run := ProbeSpec(addr, flags, answer, k, allocOk);
    assert Handshake(addr, flags)[..6] == Handshake(addr, flags);
  }

  /**
   * The handshake on the wire: 00 7F FF, the delay, a one-byte read of
   * register 00 01, then BUTTON_MASK (00 01 00 67, big-endian) written to
   * GPIO registers 03, 0B and 05.
   */
  lemma HandshakeWire(addr: nat, flags: nat)
    ensures var h := Handshake(addr, flags);
      && |h| == 6
      && h[0] == Send(addr, [0x00, 0x7F, 0xFF])
      && h[1] == Sleep(10000, 15000)
      && h[2] == BusOp.Transfer([Msg(addr, flags, 2, [0x00, 0x01]), Msg(addr, WithRead(flags), 1, [])])
      && h[3] == Send(addr, [0x01, 0x03, 0x00, 0x01, 0x00, 0x67])
      && h[4] == Send(addr, [0x01, 0x0B, 0x00, 0x01, 0x00, 0x67])
      && h[5] == Send(addr, [0x01, 0x05, 0x00, 0x01, 0x00, 0x67])
  {
    assert ToBE32(BUTTON_MASK) == [0x00, 0x01, 0x00, 0x67];
  }

  /**
   * A poll whose GPIO read returns 0xFF 0xFF 0xFF 0xBF (only line 6 low) and
   * whose ADC reads succeed reports both axes, X pressed, the five other
   * buttons released, and the sync marker.
   */
  lemma PollOnlyButtonX(addr: nat, flags: nat, answer: nat -> Reply, k: nat, before: Sample)
    requires answer(k).status >= 0 && answer(k).data == [0xFF, 0xFF, 0xFF, 0xBF]
    requires answer(k + 1).status >= 0 && answer(k + 2).status >= 0
    ensures var run := ReadDataSpec(addr, flags, answer, k, before);
      && run.ret == 0
      && var e := PollEvents(BUTTON_KEYMAP, run.data);
      && |e| == 9
      && e[0] == Abs(ABS_X, run.data.x) && e[1] == Abs(ABS_Y, run.data.y)
      && e[2] == Key(BUTTON_SELECT, BTN_SELECT, false)
      && e[3] == Key(BUTTON_B, BTN_EAST, false)
      && e[4] == Key(BUTTON_Y, BTN_WEST, false)
      && e[5] == Key(BUTTON_A, BTN_SOUTH, false)
      && e[6] == Key(BUTTON_X, BTN_NORTH, true)
      && e[7] == Key(BUTTON_START, BTN_START, false)
      && e[8] == InputEvent.Sync
  {
    var run := ReadDataSpec(addr, flags, answer, k, before);
    assert Fit(answer(k).data, 4) == [0xFF, 0xFF, 0xFF, 0xBF];
    ReadDataDecodes(addr, flags, answer, k, before);
    OnlyButtonXPressed();
    assert run.data.buttonState == 0x40;
    ButtonMaskPins();
    PollEventsForGamepad(run.data);
  }
}
