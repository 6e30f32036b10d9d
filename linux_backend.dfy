/**
 * The privileged (libinput) backend: the device-node access flags, the
 * translation of libinput keyboard and pointer events into DeviceEvent, and
 * the start command with its process-wide running flag and dispatch loop.
 */
module LinuxBackend {
  import opened Wrappers
  import opened DeviceTypes
  import opened Text
  import opened Seqs
  import DeviceKeymap

  // ---------------------------------------------------------------------------
  // Access flags of a restricted open

  /** The access-mode values of Linux's libc. */
  const O_RDONLY: bv32 := 0
  const O_WRONLY: bv32 := 1
  const O_RDWR: bv32 := 2
  const O_ACCMODE: bv32 := 3

  datatype Access = Access(read: bool, write: bool)

  /**
   * The read and write options `open_restricted` sets, as written: each tests
   * a mode constant as a bit. O_RDONLY is 0, so its test never succeeds and
   * read access depends on the O_RDWR bit alone.
   */
  function AccessAsWritten(flags: bv32): (a: Access)
    ensures a.read <==> (flags & O_RDWR) != 0
    ensures a.write <==> (flags & O_ACCMODE) != 0
  {
    Access(((flags & O_RDONLY) != 0) || ((flags & O_RDWR) != 0),
           ((flags & O_WRONLY) != 0) || ((flags & O_RDWR) != 0))
  }

  /** A read-only request, with or without other flags, asks for neither read nor write access. */
  lemma ReadOnlyRequestGetsNoAccess(flags: bv32)
    requires (flags & O_ACCMODE) == O_RDONLY
    ensures AccessAsWritten(flags) == Access(false, false)
  {
  }

  /** The access the requested mode asks for: read for read-only and read-write, write for write-only and read-write. */
  function AccessIntended(flags: bv32): (a: Access)
    ensures (flags & O_ACCMODE) == O_RDONLY ==> a == Access(true, false)
    ensures (flags & O_ACCMODE) == O_WRONLY ==> a == Access(false, true)
    ensures (flags & O_ACCMODE) == O_RDWR ==> a == Access(true, true)
  {
    var mode := flags & O_ACCMODE;
    Access(mode == O_RDONLY || mode == O_RDWR, mode == O_WRONLY || mode == O_RDWR)
  }

  /** The two differ only on read-only requests (and on the unused mode value 3). */
  lemma AccessAgreesOutsideReadOnly(flags: bv32)
    ensures (flags & O_ACCMODE) == O_WRONLY || (flags & O_ACCMODE) == O_RDWR
            <==> AccessAsWritten(flags) == AccessIntended(flags)
  {
  }

  // ---------------------------------------------------------------------------
  // Raw libinput events

  /** libinput's key state and button state (two enums with the same two values). */
  datatype PressState = Pressed | Released

  datatype PointerEvent =
    | Button(button: u32, state: PressState)
    | Motion(dxUnaccelerated: real, dyUnaccelerated: real)
    | OtherPointer  // absolute motion, axis and scroll events

  datatype LibinputEvent =
    | Keyboard(key: u32, keyState: PressState)
    | Pointer(pointer: PointerEvent)
    | OtherEvent  // device, touch, tablet, gesture and switch events

  // ---------------------------------------------------------------------------
  // Labels

  /** The fallback label `Unknown(<n>)`: the word, the numeral in parentheses. */
  function UnknownLabel(n: nat): (r: string)
    ensures |r| >= 10 && r[..8] == "Unknown(" && r[|r| - 1] == ')'
    ensures AllDigits(r[8..|r| - 1])
  {
    "Unknown(" + NatToDecimal(n) + ")"
  }

  lemma UnknownLabelInjective(a: nat, b: nat)
    requires UnknownLabel(a) == UnknownLabel(b)
    ensures a == b
  {
    var la, lb := UnknownLabel(a), UnknownLabel(b);
    assert la[8..|la| - 1] == NatToDecimal(a);
    assert lb[8..|lb| - 1] == NatToDecimal(b);
    NatToDecimalInjective(a, b);
  }

  /**
   * The name a keyboard event carries: the table's name, else the full code as
   * a fallback label. The last character tells the two apart.
   */
  function KeyLabel(code: u32): (r: string)
    ensures |r| >= 2
    ensures r[|r| - 1] == ')' <==> DeviceKeymap.KeynameFromCode(code).None?
  {
    match DeviceKeymap.KeynameFromCode(code)
    case Some(name) => DeviceKeymap.KeynameListed(code); name
    case None => UnknownLabel(code)
  }

  /** No key name is lost: distinct key codes, listed or not, always get distinct labels. */
  lemma KeyLabelInjective(a: u32, b: u32)
    requires KeyLabel(a) == KeyLabel(b)
    ensures a == b
  {
    var na, nb := DeviceKeymap.KeynameFromCode(a), DeviceKeymap.KeynameFromCode(b);
    if na.Some? { DeviceKeymap.KeynameListed(a); }
    if nb.Some? { DeviceKeymap.KeynameListed(b); }
    if na.Some? && nb.Some? {
      DeviceKeymap.KeynameInjective(a, b);
    } else if na.None? && nb.None? {
      UnknownLabelInjective(a, b);
    }
  }

  /** The name a button event carries: three named codes, else the code cut to its low byte (`as u8`). */
  function ButtonLabel(code: u32): (r: string)
    ensures |r| >= 4
    ensures r[|r| - 1] == ')' <==> code != 0x110 && code != 0x111 && code != 0x112
  {
    match code
    case 0x110 => "Left"
    case 0x111 => "Right"
    case 0x112 => "Middle"
    case _ => UnknownLabel(code % 256)
  }

  /** Apart from the three named codes, a button label depends only on the code's low byte. */
  lemma ButtonLabelLowByte(code: u32)
    requires code != 0x110 && code != 0x111 && code != 0x112
    ensures ButtonLabel(code) == ButtonLabel(code % 256) == UnknownLabel(code % 256)
  {
    var low := code % 256;
    assert 0 <= low < 256 && low % 256 == low;
    assert ButtonLabel(low) == UnknownLabel(low % 256);
  }

  /** Two different unnamed buttons can share a label: 0x999 and 0x99 both read "Unknown(153)". */
  lemma ButtonLabelCollides()
    ensures ButtonLabel(0x999) == ButtonLabel(0x99) == "Unknown(153)"
  {
    ButtonLabelLowByte(0x999);
    ButtonLabelLowByte(0x99);
    assert 0x999 % 256 == 0x99 % 256 == 153;
    UnknownLabel153();
  }

  lemma UnknownLabel153()
    ensures UnknownLabel(153) == "Unknown(153)"
  {
    assert NatToDecimal(1) == ['1'];
    assert NatToDecimal(15) == ['1', '5'];
    assert NatToDecimal(153) == ['1', '5', '3'];
  }

  // ---------------------------------------------------------------------------
  // Normalisation

  /** `build_device_event`: the DeviceEvent for a keyboard, button or motion event; None for every other event. */
  function BuildDeviceEvent(e: LibinputEvent): (r: Option<DeviceEvent>)
    ensures r.Some? ==> WellFormed(r.value)
    ensures r.None? <==> e.OtherEvent? || (e.Pointer? && e.pointer.OtherPointer?)
    ensures e.Keyboard? ==> r.Some? && IsKeyboard(r.value.kind) && r.value.value == Text(KeyLabel(e.key))
    ensures e.Pointer? && e.pointer.Motion? ==>
              r == Some(DeviceEvent(MouseMove, Point(e.pointer.dxUnaccelerated, e.pointer.dyUnaccelerated)))
  {
    match e
    case Keyboard(code, state) =>
      var name := KeyLabel(code);
      (match state
       case Pressed => Some(DeviceEvent(KeyboardPress, Text(name)))
       case Released => Some(DeviceEvent(KeyboardRelease, Text(name))))
    case Pointer(Button(code, state)) =>
      var name := ButtonLabel(code);
      (match state
       case Pressed => Some(DeviceEvent(MousePress, Text(name)))
       case Released => Some(DeviceEvent(MouseRelease, Text(name))))
    case Pointer(Motion(dx, dy)) => Some(DeviceEvent(MouseMove, Point(dx, dy)))
    case Pointer(OtherPointer) => None
    case OtherEvent => None
  }

  /** The press/release state picks the kind and nothing else: both carry the same name. */
  lemma StateSelectsKind(code: u32)
    ensures BuildDeviceEvent(Keyboard(code, Pressed)) == Some(DeviceEvent(KeyboardPress, Text(KeyLabel(code))))
    ensures BuildDeviceEvent(Keyboard(code, Released)) == Some(DeviceEvent(KeyboardRelease, Text(KeyLabel(code))))
    ensures BuildDeviceEvent(Pointer(Button(code, Pressed))) == Some(DeviceEvent(MousePress, Text(ButtonLabel(code))))
    ensures BuildDeviceEvent(Pointer(Button(code, Released))) == Some(DeviceEvent(MouseRelease, Text(ButtonLabel(code))))
  {
  }

  /** A keyboard DeviceEvent determines the key code and state it came from. */
  lemma KeyboardEventLossless(a: LibinputEvent, b: LibinputEvent)
    requires a.Keyboard? && b.Keyboard?
    requires BuildDeviceEvent(a) == BuildDeviceEvent(b)
    ensures a == b
  {
    KeyLabelInjective(a.key, b.key);
  }

  /** Worked cases: key 28 pressed, button 0x110 released, button 0x999 pressed, a motion of (3.5, -1.2). */
  lemma NormalizerExamples()
    ensures BuildDeviceEvent(Keyboard(28, Pressed)) == Some(DeviceEvent(KeyboardPress, Text("Return")))
    ensures BuildDeviceEvent(Pointer(Button(0x110, Released))) == Some(DeviceEvent(MouseRelease, Text("Left")))
    ensures BuildDeviceEvent(Pointer(Button(0x999, Pressed))) == Some(DeviceEvent(MousePress, Text("Unknown(153)")))
    ensures BuildDeviceEvent(Pointer(Motion(3.5, -1.2))) == Some(DeviceEvent(MouseMove, Point(3.5, -1.2)))
  {
    ButtonLabelCollides();
  }

  /** The events one dispatch round emits: the recognised ones, normalised, in delivery order. */
  function Emissions(events: seq<LibinputEvent>): (r: seq<DeviceEvent>)
    ensures |r| <= |events|
  {
    FilterMap(events, BuildDeviceEvent)
  }

  /** Everything a round emits has the payload shape its kind calls for. */
  lemma {:induction false} EmissionsWellFormed(events: seq<LibinputEvent>)
    ensures forall e :: e in Emissions(events) ==> WellFormed(e)
  {
    if events != [] {
      EmissionsWellFormed(events[1..]);
    }
  }

  /** A round of keyboard and button events emits exactly one event per raw event, in delivery order. */
  lemma EmissionsOneToOne(events: seq<LibinputEvent>)
    requires forall e :: e in events ==> e.Keyboard? || (e.Pointer? && !e.pointer.OtherPointer?)
    ensures |Emissions(events)| == |events|
    ensures forall i :: 0 <= i < |events| ==> Some(Emissions(events)[i]) == BuildDeviceEvent(events[i])
  {
    FilterMapTotal(events, BuildDeviceEvent);
  }

  // ---------------------------------------------------------------------------
  // The start command

  /** The message of a failed seat assignment: its `()` error, debug-formatted. */
  const SEAT_ERROR: string := "Failed to assign seat: ()"

  /**
   * The process-wide `IS_RUNNING` flag and the "device-changed" emissions made
   * so far. Seat assignment and the events each poll wakeup drains are inputs.
   */
  class DeviceListener {
    var isRunning: bool
    var emitted: seq<DeviceEvent>

    constructor ()
      ensures !isRunning && emitted == []
    {
      isRunning := false;
      emitted := [];
    }

    /**
     * `start_device_listening`. `seatAssigned` says whether seat "seat0" was
     * assigned; the assignment's error type is `()`, so a failure always reads
     * "Failed to assign seat: ()". `rounds` are the event batches drained after
     * each successful poll, until poll fails.
     */
    method StartDeviceListening(seatAssigned: bool, rounds: seq<seq<LibinputEvent>>)
      returns (r: Result<Unit, string>)
      modifies this
      ensures isRunning
      ensures old(isRunning) ==> r == Ok(Unit) && emitted == old(emitted)
      ensures !old(isRunning) && !seatAssigned ==>
                r == Err(SEAT_ERROR) && emitted == old(emitted)
      ensures !old(isRunning) && seatAssigned ==>
                r == Ok(Unit) && emitted == old(emitted) + Emissions(Flatten(rounds))
    {
      if isRunning {
        return Ok(Unit);
      }
      isRunning := true;
      if !seatAssigned {
        return Err(SEAT_ERROR);
      }
      DispatchRounds(rounds);
      return Ok(Unit);
    }

    /** The dispatch loop: one round per successful poll, until poll fails. */
    method DispatchRounds(rounds: seq<seq<LibinputEvent>>)
      modifies this`emitted
      ensures emitted == old(emitted) + Emissions(Flatten(rounds))
    {
      var i := 0;
      while i < |rounds|
        invariant 0 <= i <= |rounds|
        invariant emitted == old(emitted) + Emissions(Flatten(rounds[..i]))
      {
        EmitRound(rounds[i]);
        EmissionsOfNextRound(rounds, i);
        i := i + 1;
      }
      assert rounds[..i] == rounds;
    }

    /** One wakeup of the dispatch loop: every buffered event is normalised and the recognised ones are emitted. */
    method EmitRound(round: seq<LibinputEvent>)
      modifies this`emitted
      ensures emitted == old(emitted) + Emissions(round)
    {
      var j := 0;
      while j < |round|
        invariant 0 <= j <= |round|
        invariant emitted == old(emitted) + Emissions(round[..j])
      {
        var deviceEvent := BuildDeviceEvent(round[j]);
        FilterMapAppend(round[..j], [round[j]], BuildDeviceEvent);
        assert round[..j + 1] == round[..j] + [round[j]];
        if deviceEvent.Some? {
          emitted := emitted + [deviceEvent.value];
        }
        j := j + 1;
      }
      assert round[..j] == round;
    }
  }

  /** Draining one more round emits that round's recognised events after the earlier ones. */
  lemma EmissionsOfNextRound(rounds: seq<seq<LibinputEvent>>, i: int)
    requires 0 <= i < |rounds|
    ensures Emissions(Flatten(rounds[..i + 1])) == Emissions(Flatten(rounds[..i])) + Emissions(rounds[i])
  {
    FlattenSnoc(rounds[..i], rounds[i]);
    FilterMapAppend(Flatten(rounds[..i]), rounds[i], BuildDeviceEvent);
    assert rounds[..i + 1] == rounds[..i] + [rounds[i]];
  }

  /** Example: a failed start leaves the flag set, so the next start returns Ok without touching the seat. */
  method FailedStartBlocksRetry(rounds: seq<seq<LibinputEvent>>)
  {
    var listener := new DeviceListener();
    var first := listener.StartDeviceListening(false, rounds);
    assert first == Err("Failed to assign seat: ()") && listener.isRunning;
    var second := listener.StartDeviceListening(true, rounds);
    assert second == Ok(Unit) && listener.emitted == [];
  }
}
