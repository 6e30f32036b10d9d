/**
 * The front end's reaction to "device-changed" events: key names the current
 * model does not support are folded onto a name it may support, keyboard and
 * mouse events are routed to the model's handlers, mouse moves are
 * deduplicated on rounded coordinates, and auto-releases are kept as at most
 * one pending timer per key.
 *
 * The model's handlers are recorded as `ModelCall`s; a pending timer is an
 * entry of `releaseTimers` holding its delay, and its firing is the method
 * `FireReleaseTimer`.
 */
module UseDevice {
  import opened DeviceTypes
  import Text

  // ---------------------------------------------------------------------------
  // Key-name fallback

  const MODIFIER_PREFIXES: seq<string> := ["Meta", "Shift", "Alt", "Control"]

  /** `supportKeys[key]` is truthy: present and not the empty string. */
  predicate Supported(supportKeys: map<string, string>, key: string)
    ensures key !in supportKeys ==> !Supported(supportKeys, key)
    ensures key in supportKeys ==> (Supported(supportKeys, key) <==> supportKeys[key] != "")
  {
    key in supportKeys && supportKeys[key] != ""
  }

  predicate StartsWith(s: string, prefix: string) {
    |prefix| <= |s| && s[..|prefix|] == prefix
  }

  /** The characters a regular expression's `.` does not match. */
  predicate IsLineTerminator(c: char) {
    c == '\n' || c == '\r' || c == '\U{2028}' || c == '\U{2029}'
  }

  /** What `.*` leaves unmatched: the text from the first line terminator on. */
  function FromLineEnd(s: string): (r: string)
    ensures |r| <= |s| && r == s[|s| - |r|..]
    ensures r == [] || IsLineTerminator(r[0])
    ensures forall i :: 0 <= i < |s| - |r| ==> !IsLineTerminator(s[i])
  {
    if s == [] || IsLineTerminator(s[0]) then s else FromLineEnd(s[1..])
  }

  /** What `\d+` leaves unmatched after its greedy run of digits. */
  function DropDigits(s: string): (r: string)
    ensures |r| <= |s| && r == s[|s| - |r|..]
    ensures r == [] || !Text.IsDigit(r[0])
    ensures forall i :: 0 <= i < |s| - |r| ==> Text.IsDigit(s[i])
  {
    if s != [] && Text.IsDigit(s[0]) then DropDigits(s[1..]) else s
  }

  /** An `F` followed by a digit starts at position `i`. */
  predicate FDigitsAt(s: string, i: int) {
    0 <= i < |s| - 1 && s[i] == 'F' && Text.IsDigit(s[i + 1])
  }

  /**
   * `s.replace(/F(\d+)/, 'Fn')`: the leftmost `F<digits>` becomes `Fn`. The
   * text never grows, and only the empty text becomes empty.
   */
  function ReplaceFirstFDigits(s: string): (r: string)
    ensures |r| <= |s|
    ensures r == [] <==> s == []
  {
    if FDigitsAt(s, 0) then "Fn" + DropDigits(s[1..])
    else if s == [] then []
    else [s[0]] + ReplaceFirstFDigits(s[1..])
  }

  /**
   * The value of `nextKey` once the loop over `prefixes` has run, starting
   * from `start`: a prefix the unsupported key begins with replaces it by
   * `key.replace(/^(prefix).*\/, '$1')`.
   */
  function CollapseThrough(key: string, unsupported: bool, prefixes: seq<string>, start: string): (r: string)
    ensures |start| <= |key| ==> |r| <= |key|
    ensures (forall i :: 0 <= i < |prefixes| ==> prefixes[i] != []) && (start == [] <==> key == []) ==>
      (r == [] <==> key == [])
  {
    if prefixes == [] then start
    else
      var before := CollapseThrough(key, unsupported, prefixes[..|prefixes| - 1], start);
      var p := prefixes[|prefixes| - 1];
      if StartsWith(key, p) && unsupported then p + FromLineEnd(key[|p|..]) else before
  }

  /**
   * `getSupportedKey(key)`: a fallback is never longer than the key, and it is
   * empty only for the empty key, the one case the listener drops.
   */
  function SupportedKey(supportKeys: map<string, string>, key: string): (r: string)
    ensures |r| <= |key|
    ensures r == [] <==> key == []
  {
    var unsupported := !Supported(supportKeys, key);
    var start := if StartsWith(key, "F") && unsupported then ReplaceFirstFDigits(key) else key;
    CollapseThrough(key, unsupported, MODIFIER_PREFIXES, start)
  }

  /** The loop over the four modifier names, written out: the last name that matches wins. */
  lemma CollapseUnfolded(key: string, unsupported: bool, start: string)
    ensures CollapseThrough(key, unsupported, MODIFIER_PREFIXES, start) ==
      if StartsWith(key, "Control") && unsupported then "Control" + FromLineEnd(key[7..])
      else if StartsWith(key, "Alt") && unsupported then "Alt" + FromLineEnd(key[3..])
      else if StartsWith(key, "Shift") && unsupported then "Shift" + FromLineEnd(key[5..])
      else if StartsWith(key, "Meta") && unsupported then "Meta" + FromLineEnd(key[4..])
      else start
  {
    var ps := MODIFIER_PREFIXES;
    assert ps[..3] == ["Meta", "Shift", "Alt"];
    assert ps[..3][..2] == ["Meta", "Shift"];
    assert ps[..3][..2][..1] == ["Meta"];
    assert ps[..3][..2][..1][..0] == [];
    assert |"Meta"| == 4 && |"Shift"| == 5 && |"Alt"| == 3 && |"Control"| == 7;
    assert ps != [] && ps[..3] != [] && ps[..3][..2] != [] && ps[..3][..2][..1] != [];
    assert ps[3] == "Control" && ps[..3][2] == "Alt" && ps[..3][..2][1] == "Shift" && ps[..3][..2][..1][0] == "Meta";
    var c0 := CollapseThrough(key, unsupported, [], start);
    assert c0 == start;
    var c1 := CollapseThrough(key, unsupported, ["Meta"], start);
    assert c1 == if StartsWith(key, "Meta") && unsupported then "Meta" + FromLineEnd(key[4..]) else start;
    var c2 := CollapseThrough(key, unsupported, ["Meta", "Shift"], start);
    assert c2 == if StartsWith(key, "Shift") && unsupported then "Shift" + FromLineEnd(key[5..]) else c1;
    var c3 := CollapseThrough(key, unsupported, ["Meta", "Shift", "Alt"], start);
    assert c3 == if StartsWith(key, "Alt") && unsupported then "Alt" + FromLineEnd(key[3..]) else c2;
  }

  /** At most one modifier name can begin a key: they start with different letters. */
  lemma ModifierPrefixesDisjoint(key: string)
    ensures StartsWith(key, "Meta") ==> !StartsWith(key, "Shift") && !StartsWith(key, "Alt") && !StartsWith(key, "Control") && !StartsWith(key, "F")
    ensures StartsWith(key, "Shift") ==> !StartsWith(key, "Alt") && !StartsWith(key, "Control") && !StartsWith(key, "F")
    ensures StartsWith(key, "Alt") ==> !StartsWith(key, "Control") && !StartsWith(key, "F")
    ensures StartsWith(key, "Control") ==> !StartsWith(key, "F")
  {
    if StartsWith(key, "Meta") { assert key[0] == "Meta"[0]; }
    if StartsWith(key, "Shift") { assert key[0] == "Shift"[0]; }
    if StartsWith(key, "Alt") { assert key[0] == "Alt"[0]; }
    if StartsWith(key, "Control") { assert key[0] == "Control"[0]; }
  }

  /** A key the model supports is passed on unchanged. */
  lemma SupportedKeyUnchanged(supportKeys: map<string, string>, key: string)
    requires Supported(supportKeys, key)
    ensures SupportedKey(supportKeys, key) == key
  {
    CollapseUnfolded(key, false, key);
  }

  /** An unsupported key starting with `F` has its first `F<digits>` replaced by `Fn`. */
  lemma FunctionKeyRewritten(supportKeys: map<string, string>, key: string)
    requires !Supported(supportKeys, key) && StartsWith(key, "F")
    ensures SupportedKey(supportKeys, key) == ReplaceFirstFDigits(key)
  {
    CollapseUnfolded(key, true, ReplaceFirstFDigits(key));
    ModifierPrefixesDisjoint(key);
  }

  /**
   * An unsupported key starting with one of the modifier names collapses to
   * that name (followed by whatever comes after a line break, if any).
   */
  lemma ModifierCollapsed(supportKeys: map<string, string>, key: string, p: string)
    requires !Supported(supportKeys, key) && p in MODIFIER_PREFIXES && StartsWith(key, p)
    ensures SupportedKey(supportKeys, key) == p + FromLineEnd(key[|p|..])
  {
    assert p == "Meta" || p == "Shift" || p == "Alt" || p == "Control";
    ModifierPrefixesDisjoint(key);
    CollapseUnfolded(key, true, key);
    assert |"Meta"| == 4 && |"Shift"| == 5 && |"Alt"| == 3 && |"Control"| == 7;
  }

  /** An unsupported key with neither an `F` nor a modifier prefix is passed on unchanged. */
  lemma OtherKeyUnchanged(supportKeys: map<string, string>, key: string)
    requires !Supported(supportKeys, key) && !StartsWith(key, "F")
    requires forall p :: p in MODIFIER_PREFIXES ==> !StartsWith(key, p)
    ensures SupportedKey(supportKeys, key) == key
  {
    var ps := MODIFIER_PREFIXES;
    assert ps[3] in ps && ps[2] in ps && ps[1] in ps && ps[0] in ps;
    CollapseUnfolded(key, true, key);
  }

  lemma ReplaceSkipsChar(s: string)
    requires s != [] && !FDigitsAt(s, 0)
    ensures ReplaceFirstFDigits(s) == [s[0]] + ReplaceFirstFDigits(s[1..])
  {
  }

  lemma ShiftFDigits(s: string, j: int)
    requires s != [] && 0 <= j
    ensures FDigitsAt(s[1..], j) == FDigitsAt(s, j + 1)
  {
  }

  lemma ShiftSlices(s: string, i: int)
    requires 0 < i < |s|
    ensures s[1..][i..] == s[i + 1..] && [s[0]] + s[1..][..i - 1] == s[..i]
  {
  }

  lemma ConsAssoc(c: char, pre: string, d: string)
    ensures [c] + (pre + "Fn" + d) == ([c] + pre) + "Fn" + d
  {
  }

  /** A string with no `F<digit>` anywhere is left alone by the replacement. */
  lemma {:induction false} NoFDigitsUnchanged(s: string)
    requires forall i :: !FDigitsAt(s, i)
    ensures ReplaceFirstFDigits(s) == s
  {
    if s != [] {
      ReplaceSkipsChar(s);
      forall j | 0 <= j ensures !FDigitsAt(s[1..], j) {
        ShiftFDigits(s, j);
      }
      NoFDigitsUnchanged(s[1..]);
      assert [s[0]] + s[1..] == s;
    }
  }

  /**
   * With `i` the leftmost `F<digit>`, the replacement keeps the text before
   * it, writes `Fn`, and drops the whole run of digits.
   */
  lemma {:induction false} ReplaceFirstAt(s: string, i: int)
    requires FDigitsAt(s, i)
    requires forall j :: 0 <= j < i ==> !FDigitsAt(s, j)
    ensures ReplaceFirstFDigits(s) == s[..i] + "Fn" + DropDigits(s[i + 1..])
  {
    if i == 0 {
      assert s[..0] + "Fn" == "Fn";
    } else {
      var t := s[1..];
      ReplaceSkipsChar(s);
      forall j | 0 <= j < i - 1 ensures !FDigitsAt(t, j) {
        ShiftFDigits(s, j);
      }
      ShiftFDigits(s, i - 1);
      ReplaceFirstAt(t, i - 1);
      ShiftSlices(s, i);
      ConsAssoc(s[0], t[..i - 1], DropDigits(t[i..]));
    }
  }

  /** `F` and a run of digits, followed by a non-digit rest, becomes `Fn` and that rest. */
  lemma FunctionKeyDigitsReplaced(digits: string, rest: string)
    requires digits != [] && Text.AllDigits(digits)
    requires rest == [] || !Text.IsDigit(rest[0])
    ensures ReplaceFirstFDigits("F" + digits + rest) == "Fn" + rest
  {
    var s := "F" + digits + rest;
    assert s[1..] == digits + rest;
    assert s[1] == digits[0];
    assert FDigitsAt(s, 0);
    DropDigitsRun(digits, rest);
  }

  lemma {:induction false} DropDigitsRun(digits: string, rest: string)
    requires Text.AllDigits(digits)
    requires rest == [] || !Text.IsDigit(rest[0])
    ensures DropDigits(digits + rest) == rest
  {
    if digits != [] {
      assert (digits + rest)[1..] == digits[1..] + rest;
      DropDigitsRun(digits[1..], rest);
    } else {
      assert digits + rest == rest;
    }
  }

  /** A key without line breaks that starts with a modifier name collapses to exactly that name. */
  lemma ModifierCollapsedToName(supportKeys: map<string, string>, key: string, p: string)
    requires !Supported(supportKeys, key) && p in MODIFIER_PREFIXES && StartsWith(key, p)
    requires forall i :: 0 <= i < |key| ==> !IsLineTerminator(key[i])
    ensures SupportedKey(supportKeys, key) == p
  {
    ModifierCollapsed(supportKeys, key, p);
    var rest := key[|p|..];
    assert forall i :: 0 <= i < |rest| ==> rest[i] == key[|p| + i];
    assert FromLineEnd(rest) == [];
    assert p + [] == p;
  }

  /** The fallbacks named by the source's own examples, for a model supporting none of these keys. */
  lemma KeyFallbackExamples(supportKeys: map<string, string>)
    requires "F11" !in supportKeys && "ShiftLeft" !in supportKeys && "AltGr" !in supportKeys
    ensures SupportedKey(supportKeys, "F11") == "Fn"
    ensures SupportedKey(supportKeys, "ShiftLeft") == "Shift"
    ensures SupportedKey(supportKeys, "AltGr") == "Alt"
  {
    FunctionKeyExample(supportKeys);
    ShiftExample(supportKeys);
    AltExample(supportKeys);
  }

  lemma ShiftExample(supportKeys: map<string, string>)
    requires "ShiftLeft" !in supportKeys
    ensures SupportedKey(supportKeys, "ShiftLeft") == "Shift"
  {
    assert StartsWith("ShiftLeft", "Shift") by { assert "ShiftLeft"[..5] == "Shift"; }
    ModifierCollapsedToName(supportKeys, "ShiftLeft", "Shift");
  }

  lemma AltExample(supportKeys: map<string, string>)
    requires "AltGr" !in supportKeys
    ensures SupportedKey(supportKeys, "AltGr") == "Alt"
  {
    assert StartsWith("AltGr", "Alt") by { assert "AltGr"[..3] == "Alt"; }
    ModifierCollapsedToName(supportKeys, "AltGr", "Alt");
  }

  lemma FunctionKeyExample(supportKeys: map<string, string>)
    requires "F11" !in supportKeys
    ensures SupportedKey(supportKeys, "F11") == "Fn"
  {
    assert StartsWith("F11", "F") by { assert "F11"[..1] == "F"; }
    FunctionKeyRewritten(supportKeys, "F11");
    ReplaceF11();
  }

  lemma ReplaceF11()
    ensures ReplaceFirstFDigits("F11") == "Fn"
  {
    assert Text.AllDigits("11");
    FunctionKeyDigitsReplaced("11", "");
    assert "F" + "11" + "" == "F11";
    assert "Fn" + "" == "Fn";
  }

  // ---------------------------------------------------------------------------
  // Routing

  /** The model handlers `useDevice` calls. */
  datatype ModelCall =
    | Press(key: string)
    | Release(key: string)
    | MouseChange(button: string, pressed: bool)
    | MouseMoved

  datatype IntPoint = IntPoint(x: int, y: int)

  const CAPS_LOCK: string := "CapsLock"
  const CAPS_LOCK_RELEASE_DELAY: nat := 100
  const DEFAULT_RELEASE_DELAY: nat := 500

  /** `Math.round`: the nearest integer, halves rounded up. */
  function Round(x: real): (r: int)
    ensures r as real <= x + 0.5 < r as real + 1.0
  {
    (x + 0.5).Floor
  }

  class DeviceHandler {
    /** The model store's `supportKeys`. */
    var supportKeys: map<string, string>
    const isWindows: bool
    var lastMousePoint: IntPoint
    /** The keys with a pending auto-release, with that release's delay in milliseconds. */
    var releaseTimers: map<string, nat>
    var calls: seq<ModelCall>

    constructor(supportKeys: map<string, string>, isWindows: bool)
      ensures this.supportKeys == supportKeys && this.isWindows == isWindows
      ensures lastMousePoint == IntPoint(0, 0) && releaseTimers == map[] && calls == []
    {
      this.supportKeys := supportKeys;
      this.isWindows := isWindows;
      lastMousePoint := IntPoint(0, 0);
      releaseTimers := map[];
      calls := [];
    }

    /** `getSupportedKey`, with its loop over the modifier names. */
    method GetSupportedKey(key: string) returns (nextKey: string)
      ensures nextKey == SupportedKey(supportKeys, key)
    {
      nextKey := key;
      var unsupportedKey := !(key in supportKeys && supportKeys[key] != "");
      if StartsWith(key, "F") && unsupportedKey {
        nextKey := ReplaceFirstFDigits(key);
      }
      ghost var start := nextKey;
      for i := 0 to |MODIFIER_PREFIXES|
        invariant nextKey == CollapseThrough(key, unsupportedKey, MODIFIER_PREFIXES[..i], start)
      {
        var item := MODIFIER_PREFIXES[i];
        assert MODIFIER_PREFIXES[..i + 1][..i] == MODIFIER_PREFIXES[..i];
        if StartsWith(key, item) && unsupportedKey {
          nextKey := item + FromLineEnd(key[|item|..]);
        }
      }
      assert MODIFIER_PREFIXES[..|MODIFIER_PREFIXES|] == MODIFIER_PREFIXES;
    }

    /** `handleScheduleRelease`: a key's previous pending release is cancelled and replaced. */
    method ScheduleRelease(key: string, delay: nat)
      modifies this`releaseTimers
      ensures releaseTimers == old(releaseTimers)[key := delay]
    {
      if key in releaseTimers {
        releaseTimers := releaseTimers - {key};
      }
      releaseTimers := releaseTimers[key := delay];
    }

    /** A pending release timer goes off: the key is released and its entry removed. */
    method FireReleaseTimer(key: string)
      requires key in releaseTimers
      modifies this`releaseTimers, this`calls
      ensures calls == old(calls) + [Release(key)]
      ensures releaseTimers == old(releaseTimers) - {key} && key !in releaseTimers
    {
      calls := calls + [Release(key)];
      releaseTimers := releaseTimers - {key};
    }

    /** `processMouseMove`: only a change of the rounded point reaches the model. */
    method ProcessMouseMove(x: real, y: real)
      modifies this`lastMousePoint, this`calls
      ensures var p := IntPoint(Round(x), Round(y));
        if old(lastMousePoint) == p then lastMousePoint == p && calls == old(calls)
        else lastMousePoint == p && calls == old(calls) + [MouseMoved]
    {
      var rounded := IntPoint(Round(x), Round(y));
      if lastMousePoint == rounded {
        return;
      }
      lastMousePoint := rounded;
      calls := calls + [MouseMoved];
    }

    /** The "device-changed" listener. */
    method HandleDeviceChanged(e: DeviceEvent)
      requires WellFormed(e)
      modifies this`releaseTimers, this`lastMousePoint, this`calls
      ensures IsKeyboard(e.kind) ==>
        var k := SupportedKey(supportKeys, e.value.text);
        lastMousePoint == old(lastMousePoint) &&
        (k == [] ==> calls == old(calls) && releaseTimers == old(releaseTimers)) &&
        (k == CAPS_LOCK ==>
          calls == old(calls) + [Press(k)] && releaseTimers == old(releaseTimers)[k := CAPS_LOCK_RELEASE_DELAY]) &&
        (k != [] && k != CAPS_LOCK && e.kind == KeyboardPress ==>
          calls == old(calls) + [Press(k)] &&
          releaseTimers == if isWindows then old(releaseTimers)[k := DEFAULT_RELEASE_DELAY] else old(releaseTimers)) &&
        (k != [] && k != CAPS_LOCK && e.kind == KeyboardRelease ==>
          calls == old(calls) + [Release(k)] && releaseTimers == old(releaseTimers))
      ensures e.kind == MousePress ==>
        calls == old(calls) + [MouseChange(e.value.text, true)] &&
        releaseTimers == old(releaseTimers) && lastMousePoint == old(lastMousePoint)
      ensures e.kind == MouseRelease ==>
        calls == old(calls) + [MouseChange(e.value.text, false)] &&
        releaseTimers == old(releaseTimers) && lastMousePoint == old(lastMousePoint)
      ensures e.kind == MouseMove ==>
        var p := IntPoint(Round(e.value.x), Round(e.value.y));
        releaseTimers == old(releaseTimers) && lastMousePoint == p &&
        calls == if old(lastMousePoint) == p then old(calls) else old(calls) + [MouseMoved]
    {
      if e.kind == KeyboardPress || e.kind == KeyboardRelease {
        var nextValue := GetSupportedKey(e.value.text);
        if nextValue == [] {
          return;
        }
        if nextValue == CAPS_LOCK {
          calls := calls + [Press(nextValue)];
          ScheduleRelease(nextValue, CAPS_LOCK_RELEASE_DELAY);
          return;
        }
        if e.kind == KeyboardPress {
          if isWindows {
            ScheduleRelease(nextValue, DEFAULT_RELEASE_DELAY);
          }
          calls := calls + [Press(nextValue)];
          return;
        }
        calls := calls + [Release(nextValue)];
        return;
      }
      match e.kind {
        case MousePress => calls := calls + [MouseChange(e.value.text, true)];
        case MouseRelease => calls := calls + [MouseChange(e.value.text, false)];
        case MouseMove => ProcessMouseMove(e.value.x, e.value.y);
      }
    }
  }

  /** Example: CapsLock presses the key and schedules its release whether the event was a press or a release. */
  method CapsLockReleaseStillPresses(supportKeys: map<string, string>)
  {
    var h := new DeviceHandler(supportKeys[CAPS_LOCK := "CapsLock"], false);
    SupportedKeyUnchanged(h.supportKeys, CAPS_LOCK);
    h.HandleDeviceChanged(DeviceEvent(KeyboardRelease, Text(CAPS_LOCK)));
    assert h.calls == [Press(CAPS_LOCK)];
    assert h.releaseTimers == map[CAPS_LOCK := 100];
    h.FireReleaseTimer(CAPS_LOCK);
    assert h.calls == [Press(CAPS_LOCK), Release(CAPS_LOCK)] && h.releaseTimers == map[];
  }

  /** Example: a second move to the same rounded point is not passed on. */
  method RepeatedMoveIgnored() {
    var h := new DeviceHandler(map[], false);
    h.ProcessMouseMove(10.4, 3.6);
    assert h.calls == [MouseMoved] && h.lastMousePoint == IntPoint(10, 4);
    h.ProcessMouseMove(9.5, 4.2);
    assert h.calls == [MouseMoved];
  }
}
