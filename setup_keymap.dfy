/**
 * The scancode table kept by the platform setup code: a second, separately
 * maintained copy of the evdev key-code-to-name table.
 */
module SetupKeymap {
  import opened Wrappers
  import opened DeviceTypes
  import DeviceKeymap
  import Text

  /** The name of an evdev key code, or None for a code the table does not list. */
  function KeyFromCode(code: u32): (r: Option<string>)
    ensures r.Some? ==> 1 <= code <= 127
  {
    match code
    case 1 => Some("Escape")
    case 28 => Some("Return")
    case 14 => Some("Backspace")
    case 15 => Some("Tab")
    case 57 => Some("Space")
    case 58 => Some("CapsLock")
    case 99 => Some("PrintScreen")
    case 70 => Some("ScrollLock")
    case 119 => Some("Pause")
    case 69 => Some("NumLock")
    case 110 => Some("Insert")
    case 102 => Some("Home")
    case 107 => Some("End")
    case 104 => Some("PageUp")
    case 109 => Some("PageDown")
    case 111 => Some("Delete")
    case 103 => Some("UpArrow")
    case 108 => Some("DownArrow")
    case 105 => Some("LeftArrow")
    case 106 => Some("RightArrow")
    case 59 => Some("F1")
    case 60 => Some("F2")
    case 61 => Some("F3")
    case 62 => Some("F4")
    case 63 => Some("F5")
    case 64 => Some("F6")
    case 65 => Some("F7")
    case 66 => Some("F8")
    case 67 => Some("F9")
    case 68 => Some("F10")
    case 87 => Some("F11")
    case 88 => Some("F12")
    case 2 => Some("Num1")
    case 3 => Some("Num2")
    case 4 => Some("Num3")
    case 5 => Some("Num4")
    case 6 => Some("Num5")
    case 7 => Some("Num6")
    case 8 => Some("Num7")
    case 9 => Some("Num8")
    case 10 => Some("Num9")
    case 11 => Some("Num0")
    case 16 => Some("KeyQ")
    case 17 => Some("KeyW")
    case 18 => Some("KeyE")
    case 19 => Some("KeyR")
    case 20 => Some("KeyT")
    case 21 => Some("KeyY")
    case 22 => Some("KeyU")
    case 23 => Some("KeyI")
    case 24 => Some("KeyO")
    case 25 => Some("KeyP")
    case 30 => Some("KeyA")
    case 31 => Some("KeyS")
    case 32 => Some("KeyD")
    case 33 => Some("KeyF")
    case 34 => Some("KeyG")
    case 35 => Some("KeyH")
    case 36 => Some("KeyJ")
    case 37 => Some("KeyK")
    case 38 => Some("KeyL")
    case 44 => Some("KeyZ")
    case 45 => Some("KeyX")
    case 46 => Some("KeyC")
    case 47 => Some("KeyV")
    case 48 => Some("KeyB")
    case 49 => Some("KeyN")
    case 50 => Some("KeyM")
    case 41 => Some("BackQuote")
    case 12 => Some("Minus")
    case 13 => Some("Equal")
    case 26 => Some("LeftBracket")
    case 27 => Some("RightBracket")
    case 39 => Some("SemiColon")
    case 40 => Some("Quote")
    case 43 => Some("BackSlash")
    case 86 => Some("IntlBackslash")
    case 89 => Some("IntlRo")
    case 124 => Some("IntlYen")
    case 101 => Some("KanaMode")
    case 51 => Some("Comma")
    case 52 => Some("Dot")
    case 53 => Some("Slash")
    case 29 => Some("ControlLeft")
    case 97 => Some("ControlRight")
    case 42 => Some("ShiftLeft")
    case 54 => Some("ShiftRight")
    case 56 => Some("Alt")
    case 100 => Some("AltGr")
    case 125 => Some("MetaLeft")
    case 126 => Some("MetaRight")
    case 127 => Some("Apps")
    case 55 => Some("KpMultiply")
    case 78 => Some("KpMinus")
    case 74 => Some("KpPlus")
    case 98 => Some("KpDivide")
    case 117 => Some("KpEqual")
    case 121 => Some("KpComma")
    case 96 => Some("KpReturn")
    case 83 => Some("KpDecimal")
    case 79 => Some("Kp1")
    case 80 => Some("Kp2")
    case 81 => Some("Kp3")
    case 75 => Some("Kp4")
    case 76 => Some("Kp5")
    case 77 => Some("Kp6")
    case 71 => Some("Kp7")
    case 72 => Some("Kp8")
    case 73 => Some("Kp9")
    case 82 => Some("Kp0")
    case 115 => Some("VolumeUp")
    case 114 => Some("VolumeDown")
    case 113 => Some("VolumeMute")
    case 90 => Some("Lang1")
    case 91 => Some("Lang2")
    case 92 => Some("Lang3")
    case 93 => Some("Lang4")
    case 94 => Some("Lang5")
    case _ => None
  }

  /** The two copies of the table agree on every code. */
  lemma KeyFromCodeAgrees(code: u32)
    ensures KeyFromCode(code) == DeviceKeymap.KeynameFromCode(code)
  {
  }

  /** Codes 59 to 68 are F1 to F10; 87 and 88 are F11 and F12. */
  lemma FunctionKeys(code: u32)
    requires 59 <= code <= 68 || code == 87 || code == 88
    ensures KeyFromCode(code) == Some("F" + Text.NatToDecimal(if code <= 68 then code - 58 else code - 76))
  {
    var n := if code <= 68 then code - 58 else code - 76;
    if n < 10 {
      SingleDigitFunctionKeys(code);
      assert Text.DigitChar(n) == "0123456789"[n];
      assert "F" + Text.NatToDecimal(n) == ['F', "0123456789"[n]];
    } else {
      assert n / 10 == 1 && Text.NatToDecimal(1) == "1";
      assert Text.NatToDecimal(n) == "1" + [Text.DigitChar(n % 10)];
      assert Text.DigitChar(n % 10) == ['0', '1', '2'][n % 10];
      if code == 68 {
        assert "F" + Text.NatToDecimal(n) == "F10";
      } else if code == 87 {
        assert "F" + Text.NatToDecimal(n) == "F11";
      } else {
        assert "F" + Text.NatToDecimal(n) == "F12";
      }
    }
  }

  lemma SingleDigitFunctionKeys(code: u32)
    requires 59 <= code <= 67
    ensures KeyFromCode(code) == Some(['F', "0123456789"[code - 58]])
  {
    if code == 59 {
      assert KeyFromCode(59) == Some("F1");
    } else if code == 60 {
      assert KeyFromCode(60) == Some("F2");
    } else if code == 61 {
      assert KeyFromCode(61) == Some("F3");
    } else if code == 62 {
      assert KeyFromCode(62) == Some("F4");
    } else if code == 63 {
      assert KeyFromCode(63) == Some("F5");
    } else if code == 64 {
      assert KeyFromCode(64) == Some("F6");
    } else if code == 65 {
      assert KeyFromCode(65) == Some("F7");
    } else if code == 66 {
      assert KeyFromCode(66) == Some("F8");
    } else {
      assert KeyFromCode(67) == Some("F9");
    }
  }

  /** Code 0 and every code above 127 have no name. */
  lemma OutsideRangeUnnamed(code: u32)
    requires code == 0 || code > 127
    ensures KeyFromCode(code) == None
  {
  }
}
