/**
 * The gamepad capture loop: the start and stop commands around the
 * process-wide `IS_LISTENING` flag, and the translation of gilrs events into
 * GamepadEvent, published on "gamepad-changed".
 *
 * The debug renderings of gilrs's `Button` and `Axis` values are the
 * parameters `buttonName` and `axisName`; f32 magnitudes are reals passed
 * through unchanged.
 */
module Gamepad {
  import opened Wrappers
  import opened Seqs

  datatype GamepadEventKind = ButtonChanged | AxisChanged

  datatype GamepadEvent = GamepadEvent(kind: GamepadEventKind, name: string, value: real)

  /** gilrs's `EventType`, generic in its button and axis types (the raw `Code` fields are not modelled). */
  datatype GilrsEvent<Button, Axis> =
    | ButtonPressed(pressed: Button)
    | ButtonRepeated(repeated: Button)
    | ButtonReleased(released: Button)
    | ButtonChanged(button: Button, value: real)
    | AxisChanged(axis: Axis, value: real)
    | Connected
    | Disconnected
    | Dropped
    | ForceFeedbackEffectCompleted

  /** The translation in the drain loop: button and axis changes become GamepadEvents; every other kind is skipped. */
  function Translate<B, A>(e: GilrsEvent<B, A>, buttonName: B -> string, axisName: A -> string): (r: Option<GamepadEvent>)
    ensures r.Some? <==> e.ButtonChanged? || e.AxisChanged?
    ensures e.ButtonChanged? ==> r == Some(GamepadEvent(GamepadEventKind.ButtonChanged, buttonName(e.button), e.value))
    ensures e.AxisChanged? ==> r == Some(GamepadEvent(GamepadEventKind.AxisChanged, axisName(e.axis), e.value))
  {
    match e
    case ButtonChanged(b, v) => Some(GamepadEvent(GamepadEventKind.ButtonChanged, buttonName(b), v))
    case AxisChanged(a, v) => Some(GamepadEvent(GamepadEventKind.AxisChanged, axisName(a), v))
    case _ => None
  }

  /** The events one drain of the queue emits. */
  function Emissions<B, A>(queue: seq<GilrsEvent<B, A>>, buttonName: B -> string, axisName: A -> string): (r: seq<GamepadEvent>)
    ensures |r| <= |queue|
  {
    FilterMap(queue, e => Translate(e, buttonName, axisName))
  }

  /** A queue of button and axis changes is emitted one for one: each its translation, with the raw value, in queue order. */
  lemma {:induction false} EmissionsKeepValues<B, A>(queue: seq<GilrsEvent<B, A>>, buttonName: B -> string, axisName: A -> string)
    requires forall e :: e in queue ==> e.ButtonChanged? || e.AxisChanged?
    ensures |Emissions(queue, buttonName, axisName)| == |queue|
    ensures forall i :: 0 <= i < |queue| ==>
              Some(Emissions(queue, buttonName, axisName)[i]) == Translate(queue[i], buttonName, axisName)
    ensures forall i :: 0 <= i < |queue| ==> Emissions(queue, buttonName, axisName)[i].value == queue[i].value
  {
    var f := e => Translate(e, buttonName, axisName);
    FilterMapTotal(queue, f);
    forall i | 0 <= i < |queue|
      ensures Emissions(queue, buttonName, axisName)[i].value == queue[i].value
    {
      assert Some(Emissions(queue, buttonName, axisName)[i]) == f(queue[i]);
    }
  }

  /** Skipped kinds (presses, repeats, releases, connections, drops, ...) leave no trace, wherever they occur in the queue. */
  lemma {:induction false} SkippedIsInvisible<B, A>(before: seq<GilrsEvent<B, A>>, e: GilrsEvent<B, A>, after: seq<GilrsEvent<B, A>>,
                                                    buttonName: B -> string, axisName: A -> string)
    requires !e.ButtonChanged? && !e.AxisChanged?
    ensures Emissions(before + [e] + after, buttonName, axisName) == Emissions(before + after, buttonName, axisName)
  {
    var f := x => Translate(x, buttonName, axisName);
    FilterMapAppend(before + [e], after, f);
    FilterMapAppend(before, [e], f);
    FilterMapAppend(before, after, f);
  }

  /** Draining one more queue snapshot emits its events after the earlier ones. */
  lemma EmissionsOfNextBatch<B, A>(batches: seq<seq<GilrsEvent<B, A>>>, i: int, buttonName: B -> string, axisName: A -> string)
    requires 0 <= i < |batches|
    ensures Emissions(Flatten(batches[..i + 1]), buttonName, axisName)
      == Emissions(Flatten(batches[..i]), buttonName, axisName) + Emissions(batches[i], buttonName, axisName)
  {
    FlattenSnoc(batches[..i], batches[i]);
    FilterMapAppend(Flatten(batches[..i]), batches[i], e => Translate(e, buttonName, axisName));
    assert batches[..i + 1] == batches[..i] + [batches[i]];
  }

  /** The process-wide `IS_LISTENING` flag and the "gamepad-changed" emissions made so far. */
  class GamepadListener {
    var isListening: bool
    var emitted: seq<GamepadEvent>

    constructor ()
      ensures !isListening && emitted == []
    {
      isListening := false;
      emitted := [];
    }

    /**
     * `start_gamepad_listing`. `initError` is the message of a failed
     * `Gilrs::new`, or None when it succeeds. `batches` are the queue drains
     * the loop performs while the flag stays set; after the last one, the
     * `stop_gamepad_listing` command issued elsewhere clears the flag and the
     * loop ends.
     */
    method StartGamepadListing<B, A>(initError: Option<string>, batches: seq<seq<GilrsEvent<B, A>>>,
                                     buttonName: B -> string, axisName: A -> string)
      returns (r: Result<Unit, string>)
      modifies this
      ensures old(isListening) ==> r == Ok(Unit) && isListening && emitted == old(emitted)
      ensures !old(isListening) && initError.Some? ==>
                r == Err(initError.value) && isListening && emitted == old(emitted)
      ensures !old(isListening) && initError.None? ==>
                r == Ok(Unit) && !isListening && emitted == old(emitted) + Emissions(Flatten(batches), buttonName, axisName)
    {
      if isListening {
        return Ok(Unit);
      }
      isListening := true;
      if initError.Some? {
        return Err(initError.value);
      }
      var i := 0;
      while isListening
        invariant 0 <= i <= |batches|
        invariant emitted == old(emitted) + Emissions(Flatten(batches[..i]), buttonName, axisName)
        invariant !isListening ==> i == |batches|
        decreases |batches| - i, isListening
      {
        if i == |batches| {
          // the concurrent stop_gamepad_listing, observed by the loop condition
          StopGamepadListing();
        } else {
          DrainQueue(batches[i], buttonName, axisName);
          EmissionsOfNextBatch(batches, i, buttonName, axisName);
          i := i + 1;
        }
      }
      assert batches[..i] == batches;
      return Ok(Unit);
    }

    /** The inner `while let Some(event) = gilrs.next_event()` loop over one queue snapshot. */
    method DrainQueue<B, A>(queue: seq<GilrsEvent<B, A>>, buttonName: B -> string, axisName: A -> string)
      modifies this`emitted
      ensures emitted == old(emitted) + Emissions(queue, buttonName, axisName)
    {
      var f := e => Translate(e, buttonName, axisName);
      var j := 0;
      while j < |queue|
        invariant 0 <= j <= |queue|
        invariant emitted == old(emitted) + Emissions(queue[..j], buttonName, axisName)
      {
        FilterMapAppend(queue[..j], [queue[j]], f);
        assert queue[..j + 1] == queue[..j] + [queue[j]];
        var gamepadEvent := Translate(queue[j], buttonName, axisName);
        j := j + 1;
        if gamepadEvent.None? {
          continue;
        }
        emitted := emitted + [gamepadEvent.value];
      }
      assert queue[..j] == queue;
    }

    /** `stop_gamepad_listing`: clear the flag if it is set; otherwise do nothing. */
    method StopGamepadListing()
      modifies this`isListening
      ensures !isListening
    {
      if !isListening {
        return;
      }
      isListening := false;
    }
  }

  /**
   * Example: a failed start leaves the flag set, so later starts are no-ops until a stop;
   * after the stop a start runs the loop again.
   */
  method RestartAfterStop<B, A>(buttonName: B -> string, axisName: A -> string, b: B)
  {
    var pressed: GilrsEvent<B, A> := GilrsEvent.ButtonChanged(b, 1.0);
    var plugged: GilrsEvent<B, A> := GilrsEvent.Connected;
    var listener := new GamepadListener();
    var first := listener.StartGamepadListing<B, A>(Some("no backend"), [], buttonName, axisName);
    assert first == Err("no backend") && listener.isListening;
    var second := listener.StartGamepadListing<B, A>(None, [[pressed]], buttonName, axisName);
    assert second == Ok(Unit) && listener.emitted == [];
    listener.StopGamepadListing();
    var third := listener.StartGamepadListing<B, A>(None, [[pressed, plugged]], buttonName, axisName);
    assert Flatten([[pressed, plugged]]) == [pressed, plugged];
    assert [pressed, plugged][1..] == [plugged] && [plugged][1..] == [];
    var f := e => Translate(e, buttonName, axisName);
    assert FilterMap([plugged], f) == [];
    assert FilterMap([pressed, plugged], f) == [GamepadEvent(GamepadEventKind.ButtonChanged, buttonName(b), 1.0)];
    assert third == Ok(Unit) && !listener.isListening;
    assert listener.emitted == [GamepadEvent(GamepadEventKind.ButtonChanged, buttonName(b), 1.0)];
  }
}
