/**
 * The Adafruit Mini I2C Gamepad as seen through the Seesaw register map:
 * register addresses, the six buttons and their keymap, the decode of one
 * poll's raw bytes into a sample, and the input events a sample becomes.
 */
module Gamepad {
  import opened Bytes
  import opened Input

  // Register modules and functions.
  const STATUS_BASE: Byte := 0x00
  const GPIO_BASE: Byte := 0x01
  const ADC_BASE: Byte := 0x09

  const GPIO_DIRCLR_BULK: Byte := 0x03
  const GPIO_BULK: Byte := 0x04
  const GPIO_BULK_SET: Byte := 0x05
  const GPIO_PULLENSET: Byte := 0x0b

  const STATUS_HW_ID: Byte := 0x01
  const STATUS_SWRST: Byte := 0x7f

  const ADC_OFFSET: Byte := 0x07

  // GPIO pins of the buttons.
  const BUTTON_A: nat := 0x05
  const BUTTON_B: nat := 0x01
  const BUTTON_X: nat := 0x06
  const BUTTON_Y: nat := 0x02
  const BUTTON_START: nat := 0x10
  const BUTTON_SELECT: nat := 0x00

  // ADC channels of the stick.
  const ANALOG_X: Byte := 0x0e
  const ANALOG_Y: Byte := 0x0f

  const JOYSTICK_MAX_AXIS: nat := 1023

  /** Microseconds per millisecond; the driver's name for it has the units the wrong way round. */
  const MSEC_PER_USEC: nat := 1000

  // Keycodes of the input subsystem.
  const BTN_SOUTH: nat := 0x130
  const BTN_EAST: nat := 0x131
  const BTN_NORTH: nat := 0x133
  const BTN_WEST: nat := 0x134
  const BTN_SELECT: nat := 0x13a
  const BTN_START: nat := 0x13b

  /** BIT(A) | BIT(B) | BIT(X) | BIT(Y) | BIT(START) | BIT(SELECT) */
  const BUTTON_MASK: U32 := 0x1_0067

  /** seesaw_buttons_new: scancode is the GPIO pin, keycode the gamepad button. */
  const BUTTON_KEYMAP: seq<KeyEntry> := [
    KeyEntry(BUTTON_A, BTN_SOUTH),
    KeyEntry(BUTTON_B, BTN_EAST),
    KeyEntry(BUTTON_X, BTN_NORTH),
    KeyEntry(BUTTON_Y, BTN_WEST),
    KeyEntry(BUTTON_START, BTN_START),
    KeyEntry(BUTTON_SELECT, BTN_SELECT)
  ]

  /** struct seesaw_data: the outcome of one poll's three register reads. */
  datatype Sample = Sample(buttonState: U32, x: U16, y: U16)

  /** Whether `state & BIT(i)` is non-zero. */
  predicate Pressed(state: U32, i: nat)
  {
    Bit(state, i) == 1
  }

  /** The button word of a poll: the GPIO levels read big-endian, inverted (active-low wiring). */
  function ButtonState(gpio: seq<Byte>): U32
    requires |gpio| == 4
  {
    Not32(BE32(gpio))
  }

  /** `JOYSTICK_MAX_AXIS - raw` stored in the u16 field x: it wraps when raw exceeds the maximum. */
  function CalibrateX(raw: U16): (x: U16)
    ensures raw <= JOYSTICK_MAX_AXIS ==> x == JOYSTICK_MAX_AXIS - raw
    ensures raw > JOYSTICK_MAX_AXIS ==> x == 0x1_0000 + JOYSTICK_MAX_AXIS - raw
  {
    TruncateU16(JOYSTICK_MAX_AXIS - raw)
  }

  /** The indices below n of the bits set in v, in ascending order. */
  function SetBits(v: nat, n: nat): seq<nat>
  {
    if n == 0 then []
    else SetBits(v, n - 1) + (if Bit(v, n - 1) == 1 then [n - 1] else [])
  }

  /** SetBits lists exactly the set bits below n, each once, ascending. */
  lemma {:induction false} SetBitsSpec(v: nat, n: nat)
    ensures forall i: nat :: i in SetBits(v, n) <==> i < n && Bit(v, i) == 1
    ensures forall j, k :: 0 <= j < k < |SetBits(v, n)| ==> SetBits(v, n)[j] < SetBits(v, n)[k]
  {
    if n > 0 {
      SetBitsSpec(v, n - 1);
      var prev := SetBits(v, n - 1);
      forall j | 0 <= j < |prev|
        ensures prev[j] < n - 1
      {
        assert prev[j] in prev;
      }
    }
  }

  /** One keymap event per pin, in the order of `pins`. */
  function KeyEvents(keymap: seq<KeyEntry>, state: U32, pins: seq<nat>): (events: seq<InputEvent>)
    ensures |events| == |pins|
    ensures forall j :: 0 <= j < |pins| ==> events[j] == KeymapEvent(keymap, pins[j], Pressed(state, pins[j]))
  {
    if pins == [] then []
    else KeyEvents(keymap, state, pins[..|pins| - 1])
         + [KeymapEvent(keymap, pins[|pins| - 1], Pressed(state, pins[|pins| - 1]))]
  }

  /** Extending the pin range by one adds the event of that pin when its bit is set. */
  lemma KeyEventsStep(keymap: seq<KeyEntry>, state: U32, v: nat, n: nat)
    ensures KeyEvents(keymap, state, SetBits(v, n + 1))
      == KeyEvents(keymap, state, SetBits(v, n)) + (if Bit(v, n) == 1 then [KeymapEvent(keymap, n, Pressed(state, n))] else [])
  {
    var pins := SetBits(v, n + 1);
    if Bit(v, n) == 1 {
      assert pins[..|pins| - 1] == SetBits(v, n);
    }
  }

  /**
   * The events seesaw_poll reports for a sample: ABS_X, ABS_Y, one key event
   * for each pin of BUTTON_MASK in ascending order, then the sync marker.
   */
  function PollEvents(keymap: seq<KeyEntry>, s: Sample): seq<InputEvent>
  {
    [Abs(ABS_X, s.x), Abs(ABS_Y, s.y)] + KeyEvents(keymap, s.buttonState, SetBits(BUTTON_MASK, 32)) + [InputEvent.Sync]
  }

  /** Bit i of BUTTON_MASK, read off the successive halvings of the mask. */
  lemma ButtonMaskBit(i: nat)
    requires i < 32
    ensures Bit(BUTTON_MASK, i) == if i == 0 || i == 1 || i == 2 || i == 5 || i == 6 || i == 16 then 1 else 0
  {
    var halvings: seq<nat> := [65639, 32819, 16409, 8204, 4102, 2051, 1025, 512, 256, 128, 64, 32, 16, 8, 4, 2, 1, 0];
    var k := 0;
    while k < i && k < 17
      invariant k <= i && k <= 17
      invariant Bit(BUTTON_MASK, i) == Bit(halvings[k], i - k)
    {
      assert halvings[k + 1] == halvings[k] / 2;
      k := k + 1;
    }
    if k == 17 {
      BitOfZero(i - 17);
    }
  }

  /** Clear bits contribute nothing to SetBits. */
  lemma {:induction false} SetBitsSkip(v: nat, a: nat, b: nat)
    requires a <= b
    requires forall k :: a <= k < b ==> Bit(v, k) == 0
    ensures SetBits(v, b) == SetBits(v, a)
  {
    if a < b {
      SetBitsSkip(v, a, b - 1);
    }
  }

  lemma ButtonMaskHighPins()
    ensures SetBits(BUTTON_MASK, 32) == SetBits(BUTTON_MASK, 16) + [BUTTON_START]
  {
    forall k | 17 <= k < 32 ensures Bit(BUTTON_MASK, k) == 0 {
      ButtonMaskBit(k);
    }
    SetBitsSkip(BUTTON_MASK, 17, 32);
    ButtonMaskBit(16);
  }

  lemma ButtonMaskMiddlePins()
    ensures SetBits(BUTTON_MASK, 16) == SetBits(BUTTON_MASK, 5) + [BUTTON_A, BUTTON_X]
  {
    forall k | 7 <= k < 16 ensures Bit(BUTTON_MASK, k) == 0 {
      ButtonMaskBit(k);
    }
    SetBitsSkip(BUTTON_MASK, 7, 16);
    ButtonMaskBit(5);
    ButtonMaskBit(6);
  }

  lemma ButtonMaskLowPins()
    ensures SetBits(BUTTON_MASK, 5) == [BUTTON_SELECT, BUTTON_B, BUTTON_Y]
  {
    forall k | 3 <= k < 5 ensures Bit(BUTTON_MASK, k) == 0 {
      ButtonMaskBit(k);
    }
    SetBitsSkip(BUTTON_MASK, 3, 5);
    ButtonMaskBit(0);
    ButtonMaskBit(1);
    ButtonMaskBit(2);
  }

  /** The mask has exactly the six button pins set, visited in the order 0, 1, 2, 5, 6, 16. */
  lemma ButtonMaskPins()
    ensures SetBits(BUTTON_MASK, 32) == [BUTTON_SELECT, BUTTON_B, BUTTON_Y, BUTTON_A, BUTTON_X, BUTTON_START]
  {
    ButtonMaskHighPins();
    ButtonMaskMiddlePins();
    ButtonMaskLowPins();
  }

  /** The keycode seesaw_buttons_new gives each button pin. */
  lemma ButtonKeycodes()
    ensures Lookup(BUTTON_KEYMAP, BUTTON_A) == Some(BTN_SOUTH)
    ensures Lookup(BUTTON_KEYMAP, BUTTON_B) == Some(BTN_EAST)
    ensures Lookup(BUTTON_KEYMAP, BUTTON_X) == Some(BTN_NORTH)
    ensures Lookup(BUTTON_KEYMAP, BUTTON_Y) == Some(BTN_WEST)
    ensures Lookup(BUTTON_KEYMAP, BUTTON_START) == Some(BTN_START)
    ensures Lookup(BUTTON_KEYMAP, BUTTON_SELECT) == Some(BTN_SELECT)
  {
    LookupFirst(BUTTON_KEYMAP, 0);
    LookupFirst(BUTTON_KEYMAP, 1);
    LookupFirst(BUTTON_KEYMAP, 2);
    LookupFirst(BUTTON_KEYMAP, 3);
    LookupFirst(BUTTON_KEYMAP, 4);
    LookupFirst(BUTTON_KEYMAP, 5);
  }

  /** A pin below 32 is in the mask exactly when the keymap has an entry for it. */
  lemma KeymapCoversMask(i: nat)
    requires i < 32
    ensures Bit(BUTTON_MASK, i) == 1 <==> Lookup(BUTTON_KEYMAP, i).Some?
  {
    ButtonMaskPins();
    SetBitsSpec(BUTTON_MASK, 32);
    LookupSpec(BUTTON_KEYMAP, i);
    var pins := [BUTTON_A, BUTTON_B, BUTTON_X, BUTTON_Y, BUTTON_START, BUTTON_SELECT];
    assert forall j :: 0 <= j < |BUTTON_KEYMAP| ==> BUTTON_KEYMAP[j].scancode == pins[j];
    if i in pins {
      var j :| 0 <= j < |pins| && pins[j] == i;
      assert BUTTON_KEYMAP[j].scancode == i;
    }
  }

  /** A button reads as pressed exactly when its GPIO line is low. */
  lemma ButtonStateActiveLow(gpio: seq<Byte>, i: nat)
    requires |gpio| == 4 && i < 32
    ensures Pressed(ButtonState(gpio), i) <==> Bit(BE32(gpio), i) == 0
  {
  }

  /** The X calibration is its own inverse. */
  lemma CalibrateXInvolutive(raw: U16)
    ensures CalibrateX(CalibrateX(raw)) == raw
  {
  }

  /** X lies on the axis range exactly when the raw reading does. */
  lemma CalibrateXRange(raw: U16)
    ensures CalibrateX(raw) <= JOYSTICK_MAX_AXIS <==> raw <= JOYSTICK_MAX_AXIS
  {
  }

  lemma CalibrateXEnds()
    ensures CalibrateX(BE16([0x00, 0x00])) == 1023
    ensures CalibrateX(BE16([0x03, 0xFF])) == 0
  {
  }

  /** The gamepad's key events for a button word: SELECT, B, Y, A, X, START. */
  lemma GamepadKeyEvents(state: U32)
    ensures var keys := KeyEvents(BUTTON_KEYMAP, state, [BUTTON_SELECT, BUTTON_B, BUTTON_Y, BUTTON_A, BUTTON_X, BUTTON_START]);
      && |keys| == 6
      && keys[0] == Key(BUTTON_SELECT, BTN_SELECT, Pressed(state, BUTTON_SELECT))
      && keys[1] == Key(BUTTON_B, BTN_EAST, Pressed(state, BUTTON_B))
      && keys[2] == Key(BUTTON_Y, BTN_WEST, Pressed(state, BUTTON_Y))
      && keys[3] == Key(BUTTON_A, BTN_SOUTH, Pressed(state, BUTTON_A))
      && keys[4] == Key(BUTTON_X, BTN_NORTH, Pressed(state, BUTTON_X))
      && keys[5] == Key(BUTTON_START, BTN_START, Pressed(state, BUTTON_START))
  {
    ButtonKeycodes();
    var keys := KeyEvents(BUTTON_KEYMAP, state, [0, 1, 2, 5, 6, 16]);
    assert keys[0] == KeymapEvent(BUTTON_KEYMAP, 0, Pressed(state, 0));
    assert keys[1] == KeymapEvent(BUTTON_KEYMAP, 1, Pressed(state, 1));
    assert keys[2] == KeymapEvent(BUTTON_KEYMAP, 2, Pressed(state, 2));
    assert keys[3] == KeymapEvent(BUTTON_KEYMAP, 5, Pressed(state, 5));
    assert keys[4] == KeymapEvent(BUTTON_KEYMAP, 6, Pressed(state, 6));
    assert keys[5] == KeymapEvent(BUTTON_KEYMAP, 16, Pressed(state, 16));
  }

  /**
   * With the gamepad's keymap, a sample becomes exactly nine events: the two
   * axes, SELECT, B, Y, A, X and START, then the sync marker.
   */
  lemma PollEventsForGamepad(s: Sample)
    ensures var e := PollEvents(BUTTON_KEYMAP, s);
      && |e| == 9
      && e[0] == Abs(ABS_X, s.x)
      && e[1] == Abs(ABS_Y, s.y)
      && e[2] == Key(BUTTON_SELECT, BTN_SELECT, Pressed(s.buttonState, BUTTON_SELECT))
      && e[3] == Key(BUTTON_B, BTN_EAST, Pressed(s.buttonState, BUTTON_B))
      && e[4] == Key(BUTTON_Y, BTN_WEST, Pressed(s.buttonState, BUTTON_Y))
      && e[5] == Key(BUTTON_A, BTN_SOUTH, Pressed(s.buttonState, BUTTON_A))
      && e[6] == Key(BUTTON_X, BTN_NORTH, Pressed(s.buttonState, BUTTON_X))
      && e[7] == Key(BUTTON_START, BTN_START, Pressed(s.buttonState, BUTTON_START))
      && e[8] == InputEvent.Sync
  {
    ButtonMaskPins();
    GamepadKeyEvents(s.buttonState);
  }

  /** GPIO bytes with only line 6 low: of the six buttons only X is pressed. */
  lemma OnlyButtonXPressed()
    ensures ButtonState([0xFF, 0xFF, 0xFF, 0xBF]) == 0x40
    ensures forall i :: i in SetBits(BUTTON_MASK, 32) ==> (Pressed(0x40, i) <==> i == BUTTON_X)
  {
    ButtonMaskPins();
    assert Pow2(6) == 0x40;
    forall i: nat | i in SetBits(BUTTON_MASK, 32)
      ensures Pressed(0x40, i) <==> i == BUTTON_X
    {
      BitOfPow2(6, i);
    }
  }
}
