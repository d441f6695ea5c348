/**
 * The host's input-event sink as the Seesaw driver uses it: absolute-axis
 * reports, key reports through a sparse keymap (scancode to keycode), and
 * the synchronisation marker that closes a batch. Events are appended to a
 * log in the order the driver reports them.
 */
module Input {

  datatype Option<T> = None | Some(value: T)

  /** Axis codes of the input subsystem. */
  const ABS_X: nat := 0x00
  const ABS_Y: nat := 0x01

  /** Keycode the sparse-keymap helper reports for a scancode it does not know. */
  const KEY_UNKNOWN: nat := 240

  /** A KE_KEY entry of a sparse keymap. */
  datatype KeyEntry = KeyEntry(scancode: nat, keycode: nat)

  datatype InputEvent =
    | Abs(axis: nat, value: int)
    | Key(scancode: nat, keycode: nat, pressed: bool)
    | Sync

  /** The keycode of the first entry with this scancode, if any. */
  function Lookup(keymap: seq<KeyEntry>, scancode: nat): Option<nat>
  {
    if keymap == [] then None
    else if keymap[0].scancode == scancode then Some(keymap[0].keycode)
    else Lookup(keymap[1..], scancode)
  }

  /** Lookup succeeds exactly for the scancodes that have an entry, and returns an entry's keycode. */
  lemma {:induction false} LookupSpec(keymap: seq<KeyEntry>, scancode: nat)
    ensures Lookup(keymap, scancode).Some? <==> exists j :: 0 <= j < |keymap| && keymap[j].scancode == scancode
    ensures Lookup(keymap, scancode).Some? ==>
      exists j :: 0 <= j < |keymap| && keymap[j] == KeyEntry(scancode, Lookup(keymap, scancode).value)
  {
    if keymap != [] && keymap[0].scancode != scancode {
      LookupSpec(keymap[1..], scancode);
      assert forall j :: 1 <= j < |keymap| ==> keymap[j] == keymap[1..][j - 1];
      if Lookup(keymap, scancode).Some? {
        var j :| 0 <= j < |keymap[1..]| && keymap[1..][j] == KeyEntry(scancode, Lookup(keymap, scancode).value);
        assert keymap[j + 1] == keymap[1..][j];
      }
    }
  }

  /** Lookup finds the first entry with the scancode. */
  lemma {:induction false} LookupFirst(keymap: seq<KeyEntry>, j: nat)
    requires j < |keymap|
    requires forall i :: 0 <= i < j ==> keymap[i].scancode != keymap[j].scancode
    ensures Lookup(keymap, keymap[j].scancode) == Some(keymap[j].keycode)
  {
    if j > 0 {
      assert keymap[1..][j - 1] == keymap[j];
      LookupFirst(keymap[1..], j - 1);
    }
  }

  /** The key event reported for `scancode`: its keycode, or KEY_UNKNOWN. */
  function KeymapEvent(keymap: seq<KeyEntry>, scancode: nat, pressed: bool): InputEvent
  {
    match Lookup(keymap, scancode)
    case Some(keycode) => Key(scancode, keycode, pressed)
    case None => Key(scancode, KEY_UNKNOWN, pressed)
  }

  class InputDev {
    /** The keymap installed by sparse_keymap_setup. */
    const keymap: seq<KeyEntry>
    /** Every event reported so far, oldest first. */
    var events: seq<InputEvent>

    constructor (keymap: seq<KeyEntry>)
      ensures this.keymap == keymap && events == []
    {
      this.keymap := keymap;
      events := [];
    }

    /** input_report_abs */
    method ReportAbs(axis: nat, value: int)
      modifies this
      ensures events == old(events) + [Abs(axis, value)]
    {
      events := events + [Abs(axis, value)];
    }

    /** sparse_keymap_report_event without autorelease; true when the scancode is in the keymap. */
    method ReportKeymapEvent(scancode: nat, pressed: bool) returns (found: bool)
      modifies this
      ensures found <==> Lookup(keymap, scancode).Some?
      ensures events == old(events) + [KeymapEvent(keymap, scancode, pressed)]
    {
      var entry := Lookup(keymap, scancode);
      found := entry.Some?;
      events := events + [KeymapEvent(keymap, scancode, pressed)];
    }

    /** input_sync */
    method Sync()
      modifies this
      ensures events == old(events) + [InputEvent.Sync]
    {
      events := events + [InputEvent.Sync];
    }
  }
}
