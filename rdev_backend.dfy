/**
 * The generic (rdev global hook) backend, compiled on every platform but
 * Linux: the hook callback that turns rdev events into DeviceEvent, and the
 * start command guarded by its own process-wide running flag.
 *
 * The debug renderings of rdev's `Key` and `Button` values are not known to
 * this model; they are the parameters `keyName` and `buttonName`.
 */
module RdevBackend {
  import opened Wrappers
  import opened DeviceTypes
  import opened Seqs

  /** rdev's `EventType`, generic in its key and button types. */
  datatype RdevEvent<Key, Button> =
    | KeyPress(key: Key)
    | KeyRelease(key: Key)
    | ButtonPress(button: Button)
    | ButtonRelease(button: Button)
    | MouseMove(x: real, y: real)
    | Wheel(deltaX: int, deltaY: int)

  /** The hook callback's translation: a DeviceEvent for presses, releases and moves; None for the wheel. */
  function Normalize<K, B>(e: RdevEvent<K, B>, keyName: K -> string, buttonName: B -> string): (r: Option<DeviceEvent>)
    ensures r.None? <==> e.Wheel?
    ensures r.Some? ==> WellFormed(r.value)
    ensures (e.KeyPress? || e.KeyRelease?) ==> r.Some? && IsKeyboard(r.value.kind) && r.value.value == Text(keyName(e.key))
    ensures (e.ButtonPress? || e.ButtonRelease?) ==>
              r.Some? && r.value.kind in {DeviceKind.MousePress, DeviceKind.MouseRelease} && r.value.value == Text(buttonName(e.button))
    ensures e.MouseMove? ==> r == Some(DeviceEvent(DeviceKind.MouseMove, Point(e.x, e.y)))
  {
    match e
    case ButtonPress(b) => Some(DeviceEvent(MousePress, Text(buttonName(b))))
    case ButtonRelease(b) => Some(DeviceEvent(MouseRelease, Text(buttonName(b))))
    case MouseMove(x, y) => Some(DeviceEvent(DeviceKind.MouseMove, Point(x, y)))
    case KeyPress(k) => Some(DeviceEvent(KeyboardPress, Text(keyName(k))))
    case KeyRelease(k) => Some(DeviceEvent(KeyboardRelease, Text(keyName(k))))
    case Wheel(_, _) => None
  }

  /** Press and release of one key or button differ in kind only; both carry the same debug name. */
  lemma PressAndReleaseShareName<K, B>(k: K, b: B, keyName: K -> string, buttonName: B -> string)
    ensures Normalize(KeyPress(k), keyName, buttonName) == Some(DeviceEvent(KeyboardPress, Text(keyName(k))))
    ensures Normalize(KeyRelease(k), keyName, buttonName) == Some(DeviceEvent(KeyboardRelease, Text(keyName(k))))
    ensures Normalize(ButtonPress(b), keyName, buttonName) == Some(DeviceEvent(MousePress, Text(buttonName(b))))
    ensures Normalize(ButtonRelease(b), keyName, buttonName) == Some(DeviceEvent(MouseRelease, Text(buttonName(b))))
  {
  }

  /** The emissions for a stream of hook events: one per non-wheel event, in order. */
  function Emissions<K, B>(events: seq<RdevEvent<K, B>>, keyName: K -> string, buttonName: B -> string): (r: seq<DeviceEvent>)
    ensures |r| <= |events|
  {
    FilterMap(events, e => Normalize(e, keyName, buttonName))
  }

  /** Wheel events never reach the channel, wherever they occur in the stream. */
  lemma {:induction false} WheelIsInvisible<K, B>(before: seq<RdevEvent<K, B>>, after: seq<RdevEvent<K, B>>,
                                                   dx: int, dy: int, keyName: K -> string, buttonName: B -> string)
    ensures Emissions(before + [Wheel(dx, dy)] + after, keyName, buttonName)
            == Emissions(before + after, keyName, buttonName)
  {
    var f := e => Normalize(e, keyName, buttonName);
    FilterMapAppend(before + [Wheel(dx, dy)], after, f);
    FilterMapAppend(before, [Wheel(dx, dy)], f);
    FilterMapAppend(before, after, f);
  }

  /** A stream without wheel events is emitted one for one, in order. */
  lemma EmissionsOneToOne<K, B>(events: seq<RdevEvent<K, B>>, keyName: K -> string, buttonName: B -> string)
    requires forall e :: e in events ==> !e.Wheel?
    ensures |Emissions(events, keyName, buttonName)| == |events|
    ensures forall i :: 0 <= i < |events| ==>
              Some(Emissions(events, keyName, buttonName)[i]) == Normalize(events[i], keyName, buttonName)
  {
    FilterMapTotal(events, e => Normalize(e, keyName, buttonName));
  }

  /**
   * The process-wide `IS_RUNNING` flag and the "device-changed" emissions made
   * so far (failed emits are ignored, so every attempt is recorded).
   */
  class DeviceListener {
    var isRunning: bool
    var emitted: seq<DeviceEvent>

    constructor ()
      ensures !isRunning && emitted == []
    {
      isRunning := false;
      emitted := [];
    }

    /**
     * `start_device_listening`. `listenError` is the debug text of the error
     * `listen` returns when the hook cannot be installed, or None when it is
     * installed and delivers `events` to the callback.
     */
    method StartDeviceListening<K, B>(listenError: Option<string>, events: seq<RdevEvent<K, B>>,
                                      keyName: K -> string, buttonName: B -> string)
      returns (r: Result<Unit, string>)
      modifies this
      ensures isRunning
      ensures old(isRunning) ==> r == Err("Device is already listening") && emitted == old(emitted)
      ensures !old(isRunning) && listenError.Some? ==>
                r == Err("Failed to listen device: " + listenError.value) && emitted == old(emitted)
      ensures !old(isRunning) && listenError.None? ==>
                r == Ok(Unit) && emitted == old(emitted) + Emissions(events, keyName, buttonName)
    {
      if isRunning {
        return Err("Device is already listening");
      }
      isRunning := true;
      if listenError.Some? {
        return Err("Failed to listen device: " + listenError.value);
      }
      var i := 0;
      while i < |events|
        invariant 0 <= i <= |events| && isRunning
        invariant emitted == old(emitted) + Emissions(events[..i], keyName, buttonName)
      {
        Callback(events[i], keyName, buttonName);
        FilterMapAppend(events[..i], [events[i]], e => Normalize(e, keyName, buttonName));
        assert events[..i + 1] == events[..i] + [events[i]];
        i := i + 1;
      }
      assert events[..i] == events;
      return Ok(Unit);
    }

    /** The hook callback: emit the normalised event on "device-changed", or return without emitting. */
    method Callback<K, B>(e: RdevEvent<K, B>, keyName: K -> string, buttonName: B -> string)
      modifies this`emitted
      ensures emitted == old(emitted) + Emissions([e], keyName, buttonName)
    {
      var deviceEvent := Normalize(e, keyName, buttonName);
      if deviceEvent.None? {
        return;
      }
      emitted := emitted + [deviceEvent.value];
    }
  }

  /** Example: a second start is refused while the first holds the flag, even when the first failed. */
  method SecondStartRefused<K, B>(keyName: K -> string, buttonName: B -> string)
  {
    var listener := new DeviceListener();
    var first := listener.StartDeviceListening(Some("Error"), [], keyName, buttonName);
    assert first.Err? && listener.isRunning;
    var second := listener.StartDeviceListening(None, [RdevEvent.MouseMove(1.0, 2.0)], keyName, buttonName);
    assert second == Err("Device is already listening") && listener.emitted == [];
  }
}
