/**
 * The front end's gamepad handling: the current model's mode switches the
 * backend listener on or off, "gamepad-changed" events move the two sticks
 * or press and release buttons on the model, and a watcher per stick keeps
 * its `moved` flag in line with its coordinates and shows or hides the
 * matching paw.
 *
 * Backend commands, model handlers and Live2D parameter writes are recorded
 * as `GamepadCall`s. Vue runs a stick's watcher after the handler returns,
 * and once more when the watcher's own write changes the stick; the method
 * `FlushWatcher` does exactly that.
 */
module UseGamepad {
  import opened Wrappers
  import opened ModelStore

  datatype StickState = StickState(x: real, y: real, moved: bool, pressed: bool)

  const INITIAL_STICK_STATE: StickState := StickState(0.0, 0.0, false, false)

  datatype Side = Left | Right

  datatype GamepadCall =
    | InvokeStart
    | InvokeStop
    | AxisChange(param: string, value: real)
    | SetParameter(param: string, on: bool)
    | Press(name: string)
    | Release(name: string)

  /** The command the mode watcher sends: start for the gamepad mode, stop for any other mode or none. */
  function ModeCommand(mode: Option<ModelMode>): (r: GamepadCall)
    ensures r == InvokeStart <==> mode == Some(Gamepad)
    ensures r == InvokeStop <==> mode != Some(Gamepad)
  {
    if mode == Some(Gamepad) then InvokeStart else InvokeStop
  }

  /**
   * `stickActive` for one side. Once the watcher has settled the stick, it is
   * active exactly when the stick is off centre or pressed.
   */
  function StickActive(s: StickState): (r: bool)
    ensures Settled(s) ==> (r <==> s.x != 0.0 || s.y != 0.0 || s.pressed)
  {
    s.moved || s.pressed
  }

  /** A stick whose `moved` flag agrees with its coordinates. */
  predicate Settled(s: StickState) {
    s.moved == (s.x != 0.0 || s.y != 0.0)
  }

  function ShowHandParam(side: Side): string {
    match side
    case Left => "CatParamStickShowLeftHand"
    case Right => "CatParamStickShowRightHand"
  }

  /** The Live2D parameter an event name drives, for the four stick axes. */
  function AxisParam(name: string): (r: Option<(Side, bool, string)>)
    ensures r.Some? <==> name in {"LeftStickX", "LeftStickY", "RightStickX", "RightStickY"}
  {
    if name == "LeftStickX" then Some((Left, true, "CatParamStickLX"))
    else if name == "LeftStickY" then Some((Left, false, "CatParamStickLY"))
    else if name == "RightStickX" then Some((Right, true, "CatParamStickRX"))
    else if name == "RightStickY" then Some((Right, false, "CatParamStickRY"))
    else None
  }

  /** The stick a thumb-button name presses, and the parameter it writes. */
  function ThumbParam(name: string): (r: Option<(Side, string)>)
    ensures r.Some? <==> name in {"LeftThumb", "RightThumb"}
  {
    if name == "LeftThumb" then Some((Left, "CatParamStickLeftDown"))
    else if name == "RightThumb" then Some((Right, "CatParamStickRightDown"))
    else None
  }

  /**
   * The parameter writes one flush of a stick's watcher makes, given the
   * stick as the handler left it: the first run reports the flag values it
   * read, and a second run follows when the first changed `moved`.
   */
  function WatcherWrites(side: Side, s: StickState): (r: seq<GamepadCall>)
    ensures |r| == (if Settled(s) then 1 else 2)
    ensures r[0] == SetParameter(ShowHandParam(side), StickActive(s))
  {
    var moved := s.x != 0.0 || s.y != 0.0;
    [SetParameter(ShowHandParam(side), s.moved || s.pressed)]
    + (if moved != s.moved then [SetParameter(ShowHandParam(side), moved || s.pressed)] else [])
  }

  /** The stick after its watcher: `moved` recomputed from the coordinates. */
  function Settle(s: StickState): (r: StickState)
    ensures Settled(r) && r.x == s.x && r.y == s.y && r.pressed == s.pressed
    ensures Settled(s) ==> r == s
  {
    s.(moved := s.x != 0.0 || s.y != 0.0)
  }

  /** Whatever the stick was, the last write of the watcher shows the paw exactly when the settled stick is active. */
  lemma WatcherEndsOnActive(side: Side, s: StickState)
    ensures var w := WatcherWrites(side, s);
      w != [] && w[|w| - 1] == SetParameter(ShowHandParam(side), StickActive(Settle(s)))
  {
  }

  class GamepadHandler {
    var left: StickState
    var right: StickState
    /** The mode the mode watcher last saw. */
    var watchedMode: Option<ModelMode>
    var calls: seq<GamepadCall>

    function Stick(side: Side): StickState
      reads this
    {
      match side
      case Left => left
      case Right => right
    }

    predicate Valid()
      reads this
    {
      Settled(left) && Settled(right)
    }

    /**
     * Setting up: both sticks start from copies of the initial state and the
     * mode watcher runs once. `mode` is the mode of the model object the store
     * held at setup, None when there was none.
     */
    constructor(mode: Option<ModelMode>)
      ensures left == INITIAL_STICK_STATE && right == INITIAL_STICK_STATE && Valid()
      ensures watchedMode == mode && calls == [ModeCommand(mode)]
    {
      left := INITIAL_STICK_STATE;
      right := INITIAL_STICK_STATE;
      watchedMode := mode;
      calls := [ModeCommand(mode)];
    }

    /**
     * The mode watcher: it fires only when the watched mode changes. What it
     * watches is the `mode` of the model object captured at setup, so a later
     * switch of the store to another model does not reach it.
     */
    method ModeChanged(mode: Option<ModelMode>)
      modifies this`watchedMode, this`calls
      ensures watchedMode == mode
      ensures calls == if mode == old(watchedMode) then old(calls) else old(calls) + [ModeCommand(mode)]
    {
      if mode == watchedMode {
        return;
      }
      watchedMode := mode;
      if mode == Some(Gamepad) {
        calls := calls + [InvokeStart];
        return;
      }
      calls := calls + [InvokeStop];
    }

    method SetStick(side: Side, s: StickState)
      modifies this`left, this`right
      ensures Stick(side) == s
      ensures side == Left ==> right == old(right)
      ensures side == Right ==> left == old(left)
    {
      match side
      case Left => left := s;
      case Right => right := s;
    }

    /** One run of a stick's watcher callback. */
    method WatcherRun(side: Side)
      modifies this`left, this`right, this`calls
      ensures Stick(side) == Settle(old(Stick(side)))
      ensures side == Left ==> right == old(right)
      ensures side == Right ==> left == old(left)
      ensures calls == old(calls) + [SetParameter(ShowHandParam(side), old(Stick(side)).moved || old(Stick(side)).pressed)]
    {
      var s := Stick(side);
      SetStick(side, s.(moved := s.x != 0.0 || s.y != 0.0));
      calls := calls + [SetParameter(ShowHandParam(side), s.moved || s.pressed)];
    }

    /** The watcher runs, and runs again if its own write changed the stick. */
    method FlushWatcher(side: Side)
      modifies this`left, this`right, this`calls
      ensures Stick(side) == Settle(old(Stick(side)))
      ensures side == Left ==> right == old(right)
      ensures side == Right ==> left == old(left)
      ensures calls == old(calls) + WatcherWrites(side, old(Stick(side)))
    {
      var before := Stick(side);
      WatcherRun(side);
      if Stick(side) != before {
        WatcherRun(side);
      }
    }

    /** The "gamepad-changed" listener, followed by the watchers of the sticks it changed. */
    method GamepadChanged(name: string, value: real)
      requires Valid()
      modifies this`left, this`right, this`calls
      ensures Valid()
      ensures AxisParam(name).Some? ==>
        var (side, isX, param) := AxisParam(name).value;
        var s := old(Stick(side));
        var moved := if isX then s.(x := value) else s.(y := value);
        Stick(side) == Settle(moved) &&
        calls == old(calls) + [AxisChange(param, value)] + (if moved != s then WatcherWrites(side, moved) else [])
      ensures ThumbParam(name).Some? ==>
        var (side, param) := ThumbParam(name).value;
        var s := old(Stick(side));
        var pressed := s.(pressed := value != 0.0);
        Stick(side) == pressed &&
        calls == old(calls) + [SetParameter(param, value != 0.0)] + (if pressed != s then WatcherWrites(side, pressed) else [])
      ensures AxisParam(name).None? && ThumbParam(name).None? ==>
        left == old(left) && right == old(right) &&
        calls == old(calls) + [if value > 0.0 then Press(name) else Release(name)]
      ensures AxisParam(name).Some? || ThumbParam(name).Some? ==>
        var side := if AxisParam(name).Some? then AxisParam(name).value.0 else ThumbParam(name).value.0;
        (side == Left ==> right == old(right)) && (side == Right ==> left == old(left))
    {
      var axis := AxisParam(name);
      var thumb := ThumbParam(name);
      if axis.Some? {
        var (side, isX, param) := axis.value;
        var s := Stick(side);
        var moved := if isX then s.(x := value) else s.(y := value);
        SetStick(side, moved);
        calls := calls + [AxisChange(param, value)];
        if moved != s {
          FlushWatcher(side);
        }
      } else if thumb.Some? {
        var (side, param) := thumb.value;
        var s := Stick(side);
        var pressed := s.(pressed := value != 0.0);
        SetStick(side, pressed);
        calls := calls + [SetParameter(param, value != 0.0)];
        if pressed != s {
          FlushWatcher(side);
        }
      } else if value > 0.0 {
        calls := calls + [Press(name)];
      } else {
        calls := calls + [Release(name)];
      }
    }
  }

  /** Example: tilting the left stick and letting it go: the paw is shown, then hidden, and the right stick is untouched. */
  method StickRoundTrip() {
    var h := new GamepadHandler(Some(Gamepad));
    h.GamepadChanged("LeftStickX", 0.5);
    assert h.left == StickState(0.5, 0.0, true, false) && h.right == INITIAL_STICK_STATE;
    assert h.calls[|h.calls| - 1] == SetParameter("CatParamStickShowLeftHand", true);
    h.GamepadChanged("LeftStickX", 0.0);
    assert h.left == INITIAL_STICK_STATE;
    assert h.calls[|h.calls| - 1] == SetParameter("CatParamStickShowLeftHand", false);
  }
}
