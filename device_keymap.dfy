/**
 * The scancode table of the privileged (libinput) backend: Linux evdev key
 * codes, as numbered in the kernel's input-event-codes.h, to symbolic key names.
 */
module DeviceKeymap {
  import opened Wrappers
  import opened DeviceTypes

  /** The name of an evdev key code, or None for a code the table does not list. */
  function KeynameFromCode(code: u32): (r: Option<string>)
    ensures r.Some? ==> 1 <= code <= 127
  {
    match code
    case 1 => Some("Escape")
    case 28 => Some("Return")
    case 14 => Some("Backspace")
    case 15 => Some("Tab")
    case 57 => Some("Space")
    case 58 => Some("CapsLock")
    case 99 => Some("PrintScreen")
    case 70 => Some("ScrollLock")
    case 119 => Some("Pause")
    case 69 => Some("NumLock")
    case 110 => Some("Insert")
    case 102 => Some("Home")
    case 107 => Some("End")
    case 104 => Some("PageUp")
    case 109 => Some("PageDown")
    case 111 => Some("Delete")
    case 103 => Some("UpArrow")
    case 108 => Some("DownArrow")
    case 105 => Some("LeftArrow")
    case 106 => Some("RightArrow")
    case 59 => Some("F1")
    case 60 => Some("F2")
    case 61 => Some("F3")
    case 62 => Some("F4")
    case 63 => Some("F5")
    case 64 => Some("F6")
    case 65 => Some("F7")
    case 66 => Some("F8")
    case 67 => Some("F9")
    case 68 => Some("F10")
    case 87 => Some("F11")
    case 88 => Some("F12")
    case 2 => Some("Num1")
    case 3 => Some("Num2")
    case 4 => Some("Num3")
    case 5 => Some("Num4")
    case 6 => Some("Num5")
    case 7 => Some("Num6")
    case 8 => Some("Num7")
    case 9 => Some("Num8")
    case 10 => Some("Num9")
    case 11 => Some("Num0")
    case 16 => Some("KeyQ")
    case 17 => Some("KeyW")
    case 18 => Some("KeyE")
    case 19 => Some("KeyR")
    case 20 => Some("KeyT")
    case 21 => Some("KeyY")
    case 22 => Some("KeyU")
    case 23 => Some("KeyI")
    case 24 => Some("KeyO")
    case 25 => Some("KeyP")
    case 30 => Some("KeyA")
    case 31 => Some("KeyS")
    case 32 => Some("KeyD")
    case 33 => Some("KeyF")
    case 34 => Some("KeyG")
    case 35 => Some("KeyH")
    case 36 => Some("KeyJ")
    case 37 => Some("KeyK")
    case 38 => Some("KeyL")
    case 44 => Some("KeyZ")
    case 45 => Some("KeyX")
    case 46 => Some("KeyC")
    case 47 => Some("KeyV")
    case 48 => Some("KeyB")
    case 49 => Some("KeyN")
    case 50 => Some("KeyM")
    case 41 => Some("BackQuote")
    case 12 => Some("Minus")
    case 13 => Some("Equal")
    case 26 => Some("LeftBracket")
    case 27 => Some("RightBracket")
    case 39 => Some("SemiColon")
    case 40 => Some("Quote")
    case 43 => Some("BackSlash")
    case 86 => Some("IntlBackslash")
    case 89 => Some("IntlRo")
    case 124 => Some("IntlYen")
    case 101 => Some("KanaMode")
    case 51 => Some("Comma")
    case 52 => Some("Dot")
    case 53 => Some("Slash")
    case 29 => Some("ControlLeft")
    case 97 => Some("ControlRight")
    case 42 => Some("ShiftLeft")
    case 54 => Some("ShiftRight")
    case 56 => Some("Alt")
    case 100 => Some("AltGr")
    case 125 => Some("MetaLeft")
    case 126 => Some("MetaRight")
    case 127 => Some("Apps")
    case 55 => Some("KpMultiply")
    case 78 => Some("KpMinus")
    case 74 => Some("KpPlus")
    case 98 => Some("KpDivide")
    case 117 => Some("KpEqual")
    case 121 => Some("KpComma")
    case 96 => Some("KpReturn")
    case 83 => Some("KpDecimal")
    case 79 => Some("Kp1")
    case 80 => Some("Kp2")
    case 81 => Some("Kp3")
    case 75 => Some("Kp4")
    case 76 => Some("Kp5")
    case 77 => Some("Kp6")
    case 71 => Some("Kp7")
    case 72 => Some("Kp8")
    case 73 => Some("Kp9")
    case 82 => Some("Kp0")
    case 115 => Some("VolumeUp")
    case 114 => Some("VolumeDown")
    case 113 => Some("VolumeMute")
    case 90 => Some("Lang1")
    case 91 => Some("Lang2")
    case 92 => Some("Lang3")
    case 93 => Some("Lang4")
    case 94 => Some("Lang5")
    case _ => None
  }

  /**
   * A number that tells the listed names apart: built from the length and the
   * second, next-to-last and last characters, which no two listed names share.
   */
  function Fingerprint(name: string): int
    requires |name| >= 2
  {
    ((|name| * 128 + name[1] as int) * 128 + name[|name| - 2] as int) * 128 + name[|name| - 1] as int
  }

  /** The inverse lookup, keyed by fingerprint: the code a listed name belongs to. */
  function CodeFromFingerprint(f: int): Option<u32>
  {
    if f < 10319541 then
      if f < 10058948 then
        if f < 8107876 then
          if f < 5120824 then
            if f < 5055284 then
              if f < 5022514 then
                if f == 5006129 then Some(59) /* "F1" */ else None
              else
                if f < 5038899 then
                  if f == 5022514 then Some(60) /* "F2" */ else None
                else
                  if f == 5038899 then Some(61) /* "F3" */ else None
            else
              if f < 5088054 then
                if f < 5071669 then
                  if f == 5055284 then Some(62) /* "F4" */ else None
                else
                  if f == 5071669 then Some(63) /* "F5" */ else None
              else
                if f < 5104439 then
                  if f == 5088054 then Some(64) /* "F6" */ else None
                else
                  if f == 5104439 then Some(65) /* "F7" */ else None
          else
            if f < 7100593 then
              if f < 5137209 then
                if f == 5120824 then Some(66) /* "F8" */ else None
              else
                if f < 7100592 then
                  if f == 5137209 then Some(67) /* "F9" */ else None
                else
                  if f == 7100592 then Some(68) /* "F10" */ else None
            else
              if f < 7893218 then
                if f < 7100594 then
                  if f == 7100593 then Some(87) /* "F11" */ else None
                else
                  if f == 7100594 then Some(88) /* "F12" */ else None
              else
                if f < 8074868 then
                  if f == 7893218 then Some(15) /* "Tab" */ else None
                else
                  if f == 8074868 then Some(56) /* "Alt" */ else None
        else
          if f < 8140853 then
            if f < 8140849 then
              if f < 8124404 then
                if f == 8107876 then Some(107) /* "End" */ else None
              else
                if f < 8140848 then
                  if f == 8124404 then Some(52) /* "Dot" */ else None
                else
                  if f == 8140848 then Some(82) /* "Kp0" */ else None
            else
              if f < 8140851 then
                if f < 8140850 then
                  if f == 8140849 then Some(79) /* "Kp1" */ else None
                else
                  if f == 8140850 then Some(80) /* "Kp2" */ else None
              else
                if f < 8140852 then
                  if f == 8140851 then Some(81) /* "Kp3" */ else None
                else
                  if f == 8140852 then Some(75) /* "Kp4" */ else None
          else
            if f < 8140857 then
              if f < 8140855 then
                if f < 8140854 then
                  if f == 8140853 then Some(76) /* "Kp5" */ else None
                else
                  if f == 8140854 then Some(77) /* "Kp6" */ else None
              else
                if f < 8140856 then
                  if f == 8140855 then Some(71) /* "Kp7" */ else None
                else
                  if f == 8140856 then Some(72) /* "Kp8" */ else None
            else
              if f < 10058946 then
                if f < 10058945 then
                  if f == 8140857 then Some(73) /* "Kp9" */ else None
                else
                  if f == 10058945 then Some(30) /* "KeyA" */ else None
              else
                if f < 10058947 then
                  if f == 10058946 then Some(48) /* "KeyB" */ else None
                else
                  if f == 10058947 then Some(46) /* "KeyC" */ else None
      else
        if f < 10058963 then
          if f < 10058955 then
            if f < 10058951 then
              if f < 10058949 then
                if f == 10058948 then Some(32) /* "KeyD" */ else None
              else
                if f < 10058950 then
                  if f == 10058949 then Some(18) /* "KeyE" */ else None
                else
                  if f == 10058950 then Some(33) /* "KeyF" */ else None
            else
              if f < 10058953 then
                if f < 10058952 then
                  if f == 10058951 then Some(34) /* "KeyG" */ else None
                else
                  if f == 10058952 then Some(35) /* "KeyH" */ else None
              else
                if f < 10058954 then
                  if f == 10058953 then Some(23) /* "KeyI" */ else None
                else
                  if f == 10058954 then Some(36) /* "KeyJ" */ else None
          else
            if f < 10058959 then
              if f < 10058957 then
                if f < 10058956 then
                  if f == 10058955 then Some(37) /* "KeyK" */ else None
                else
                  if f == 10058956 then Some(38) /* "KeyL" */ else None
              else
                if f < 10058958 then
                  if f == 10058957 then Some(50) /* "KeyM" */ else None
                else
                  if f == 10058958 then Some(49) /* "KeyN" */ else None
            else
              if f < 10058961 then
                if f < 10058960 then
                  if f == 10058959 then Some(24) /* "KeyO" */ else None
                else
                  if f == 10058960 then Some(25) /* "KeyP" */ else None
              else
                if f < 10058962 then
                  if f == 10058961 then Some(16) /* "KeyQ" */ else None
                else
                  if f == 10058962 then Some(19) /* "KeyR" */ else None
        else
          if f < 10058970 then
            if f < 10058966 then
              if f < 10058964 then
                if f == 10058963 then Some(31) /* "KeyS" */ else None
              else
                if f < 10058965 then
                  if f == 10058964 then Some(20) /* "KeyT" */ else None
                else
                  if f == 10058965 then Some(22) /* "KeyU" */ else None
            else
              if f < 10058968 then
                if f < 10058967 then
                  if f == 10058966 then Some(47) /* "KeyV" */ else None
                else
                  if f == 10058967 then Some(17) /* "KeyW" */ else None
              else
                if f < 10058969 then
                  if f == 10058968 then Some(45) /* "KeyX" */ else None
                else
                  if f == 10058969 then Some(21) /* "KeyY" */ else None
          else
            if f < 10319537 then
              if f < 10238067 then
                if f < 10221285 then
                  if f == 10058970 then Some(44) /* "KeyZ" */ else None
                else
                  if f == 10221285 then Some(102) /* "Home" */ else None
              else
                if f < 10319536 then
                  if f == 10238067 then Some(127) /* "Apps" */ else None
                else
                  if f == 10319536 then Some(11) /* "Num0" */ else None
            else
              if f < 10319539 then
                if f < 10319538 then
                  if f == 10319537 then Some(2) /* "Num1" */ else None
                else
                  if f == 10319538 then Some(3) /* "Num2" */ else None
              else
                if f < 10319540 then
                  if f == 10319539 then Some(4) /* "Num3" */ else None
                else
                  if f == 10319540 then Some(5) /* "Num4" */ else None
    else
      if f < 16530163 then
        if f < 12318433 then
          if f < 12088243 then
            if f < 10319544 then
              if f < 10319542 then
                if f == 10319541 then Some(6) /* "Num5" */ else None
              else
                if f < 10319543 then
                  if f == 10319542 then Some(7) /* "Num6" */ else None
                else
                  if f == 10319543 then Some(8) /* "Num7" */ else None
            else
              if f < 12088241 then
                if f < 10319545 then
                  if f == 10319544 then Some(9) /* "Num8" */ else None
                else
                  if f == 10319545 then Some(10) /* "Num9" */ else None
              else
                if f < 12088242 then
                  if f == 12088241 then Some(90) /* "Lang1" */ else None
                else
                  if f == 12088242 then Some(91) /* "Lang2" */ else None
          else
            if f < 12089829 then
              if f < 12088244 then
                if f == 12088243 then Some(92) /* "Lang3" */ else None
              else
                if f < 12088245 then
                  if f == 12088244 then Some(93) /* "Lang4" */ else None
                else
                  if f == 12088245 then Some(94) /* "Lang5" */ else None
            else
              if f < 12264434 then
                if f < 12221171 then
                  if f == 12089829 then Some(119) /* "Pause" */ else None
                else
                  if f == 12221171 then Some(12) /* "Minus" */ else None
              else
                if f < 12270056 then
                  if f == 12264434 then Some(100) /* "AltGr" */ else None
                else
                  if f == 12270056 then Some(53) /* "Slash" */ else None
        else
          if f < 14395759 then
            if f < 12417637 then
              if f < 12333541 then
                if f == 12318433 then Some(51) /* "Comma" */ else None
              else
                if f < 12349676 then
                  if f == 12333541 then Some(57) /* "Space" */ else None
                else
                  if f == 12349676 then Some(13) /* "Equal" */ else None
            else
              if f < 14252398 then
                if f < 14183152 then
                  if f == 12417637 then Some(40) /* "Quote" */ else None
                else
                  if f == 14183152 then Some(104) /* "PageUp" */ else None
              else
                if f < 14252645 then
                  if f == 14252398 then Some(28) /* "Return" */ else None
                else
                  if f == 14252645 then Some(111) /* "Delete" */ else None
          else
            if f < 16495342 then
              if f < 14433011 then
                if f < 14399860 then
                  if f == 14395759 then Some(89) /* "IntlRo" */ else None
                else
                  if f == 14399860 then Some(110) /* "Insert" */ else None
              else
                if f < 14481509 then
                  if f == 14433011 then Some(74) /* "KpPlus" */ else None
                else
                  if f == 14481509 then Some(1) /* "Escape" */ else None
            else
              if f < 16529121 then
                if f < 16527596 then
                  if f == 16495342 then Some(124) /* "IntlYen" */ else None
                else
                  if f == 16527596 then Some(117) /* "KpEqual" */ else None
              else
                if f < 16529399 then
                  if f == 16529121 then Some(121) /* "KpComma" */ else None
                else
                  if f == 16529399 then Some(103) /* "UpArrow" */ else None
      else
        if f < 20591476 then
          if f < 18625125 then
            if f < 18379365 then
              if f < 16609771 then
                if f == 16530163 then Some(78) /* "KpMinus" */ else None
              else
                if f < 18379243 then
                  if f == 16609771 then Some(69) /* "NumLock" */ else None
                else
                  if f == 18379243 then Some(58) /* "CapsLock" */ else None
            else
              if f < 18445172 then
                if f < 18381806 then
                  if f == 18379365 then Some(101) /* "KanaMode" */ else None
                else
                  if f == 18381806 then Some(109) /* "PageDown" */ else None
              else
                if f < 18606832 then
                  if f == 18445172 then Some(125) /* "MetaLeft" */ else None
                else
                  if f == 18606832 then Some(115) /* "VolumeUp" */ else None
          else
            if f < 20478565 then
              if f < 20476389 then
                if f < 18626926 then
                  if f == 18625125 then Some(98) /* "KpDivide" */ else None
                else
                  if f == 18626926 then Some(96) /* "KpReturn" */ else None
              else
                if f < 20478440 then
                  if f == 20476389 then Some(14) /* "Backspace" */ else None
                else
                  if f == 20478440 then Some(43) /* "BackSlash" */ else None
            else
              if f < 20543470 then
                if f < 20542580 then
                  if f == 20478565 then Some(41) /* "BackQuote" */ else None
                else
                  if f == 20542580 then Some(126) /* "MetaRight" */ else None
              else
                if f < 20543479 then
                  if f == 20543470 then Some(39) /* "SemiColon" */ else None
                else
                  if f == 20543479 then Some(105) /* "LeftArrow" */ else None
        else
          if f < 22805486 then
            if f < 22606315 then
              if f < 20707319 then
                if f == 20591476 then Some(42) /* "ShiftLeft" */ else None
              else
                if f < 20721900 then
                  if f == 20707319 then Some(108) /* "DownArrow" */ else None
                else
                  if f == 20721900 then Some(83) /* "KpDecimal" */ else None
            else
              if f < 22706167 then
                if f < 22688884 then
                  if f == 22606315 then Some(70) /* "ScrollLock" */ else None
                else
                  if f == 22688884 then Some(54) /* "ShiftRight" */ else None
              else
                if f < 22805093 then
                  if f == 22706167 then Some(106) /* "RightArrow" */ else None
                else
                  if f == 22805093 then Some(113) /* "VolumeMute" */ else None
          else
            if f < 24949486 then
              if f < 24736500 then
                if f < 22820473 then
                  if f == 22805486 then Some(114) /* "VolumeDown" */ else None
                else
                  if f == 22820473 then Some(55) /* "KpMultiply" */ else None
              else
                if f < 24900468 then
                  if f == 24736500 then Some(26) /* "LeftBracket" */ else None
                else
                  if f == 24900468 then Some(29) /* "ControlLeft" */ else None
            else
              if f < 26997876 then
                if f < 26899188 then
                  if f == 24949486 then Some(99) /* "PrintScreen" */ else None
                else
                  if f == 26899188 then Some(27) /* "RightBracket" */ else None
              else
                if f < 29080040 then
                  if f == 26997876 then Some(97) /* "ControlRight" */ else None
                else
                  if f == 29080040 then Some(86) /* "IntlBackslash" */ else None
  }

  /**
   * What is true of every listed name: it has at least two characters, it does
   * not end in ')' (the last character of every fallback label), and its
   * fingerprint leads back to its code.
   */
  predicate ListedNameFacts(code: u32, name: string) {
    && |name| >= 2
    && name[|name| - 1] != ')'
    && CodeFromFingerprint(Fingerprint(name)) == Some(code)
  }

  lemma KeynameListed(code: u32)
    requires KeynameFromCode(code).Some?
    ensures ListedNameFacts(code, KeynameFromCode(code).value)
  {
    if code < 4 { ListedBlock0(code); }
    else if code < 8 { ListedBlock1(code); }
    else if code < 12 { ListedBlock2(code); }
    else if code < 16 { ListedBlock3(code); }
    else if code < 20 { ListedBlock4(code); }
    else if code < 24 { ListedBlock5(code); }
    else if code < 28 { ListedBlock6(code); }
    else if code < 32 { ListedBlock7(code); }
    else if code < 36 { ListedBlock8(code); }
    else if code < 40 { ListedBlock9(code); }
    else if code < 44 { ListedBlock10(code); }
    else if code < 48 { ListedBlock11(code); }
    else if code < 52 { ListedBlock12(code); }
    else if code < 56 { ListedBlock13(code); }
    else if code < 60 { ListedBlock14(code); }
    else if code < 64 { ListedBlock15(code); }
    else if code < 68 { ListedBlock16(code); }
    else if code < 72 { ListedBlock17(code); }
    else if code < 76 { ListedBlock18(code); }
    else if code < 80 { ListedBlock19(code); }
    else if code < 84 { ListedBlock20(code); }
    else if code < 88 { ListedBlock21(code); }
    else if code < 92 { ListedBlock22(code); }
    else if code < 96 { ListedBlock23(code); }
    else if code < 100 { ListedBlock24(code); }
    else if code < 104 { ListedBlock25(code); }
    else if code < 108 { ListedBlock26(code); }
    else if code < 112 { ListedBlock27(code); }
    else if code < 116 { ListedBlock28(code); }
    else if code < 120 { ListedBlock29(code); }
    else if code < 124 { ListedBlock30(code); }
    else { ListedBlock31(code); }
  }

  // KeynameListed checked 4 codes at a time, which keeps each case split small.

  lemma ListedBlock0(code: u32)
    requires 0 <= code < 4 && KeynameFromCode(code).Some?
    ensures ListedNameFacts(code, KeynameFromCode(code).value)
  {
  }

  lemma ListedBlock1(code: u32)
    requires 4 <= code < 8 && KeynameFromCode(code).Some?
    ensures ListedNameFacts(code, KeynameFromCode(code).value)
  {
  }

  lemma ListedBlock2(code: u32)
    requires 8 <= code < 12 && KeynameFromCode(code).Some?
    ensures ListedNameFacts(code, KeynameFromCode(code).value)
  {
  }

  lemma ListedBlock3(code: u32)
    requires 12 <= code < 16 && KeynameFromCode(code).Some?
    ensures ListedNameFacts(code, KeynameFromCode(code).value)
  {
  }

  lemma ListedBlock4(code: u32)
    requires 16 <= code < 20 && KeynameFromCode(code).Some?
    ensures ListedNameFacts(code, KeynameFromCode(code).value)
  {
  }

  lemma ListedBlock5(code: u32)
    requires 20 <= code < 24 && KeynameFromCode(code).Some?
    ensures ListedNameFacts(code, KeynameFromCode(code).value)
  {
  }

  lemma ListedBlock6(code: u32)
    requires 24 <= code < 28 && KeynameFromCode(code).Some?
    ensures ListedNameFacts(code, KeynameFromCode(code).value)
  {
  }

  lemma ListedBlock7(code: u32)
    requires 28 <= code < 32 && KeynameFromCode(code).Some?
    ensures ListedNameFacts(code, KeynameFromCode(code).value)
  {
  }

  lemma ListedBlock8(code: u32)
    requires 32 <= code < 36 && KeynameFromCode(code).Some?
    ensures ListedNameFacts(code, KeynameFromCode(code).value)
  {
  }

  lemma ListedBlock9(code: u32)
    requires 36 <= code < 40 && KeynameFromCode(code).Some?
    ensures ListedNameFacts(code, KeynameFromCode(code).value)
  {
  }

  lemma ListedBlock10(code: u32)
    requires 40 <= code < 44 && KeynameFromCode(code).Some?
    ensures ListedNameFacts(code, KeynameFromCode(code).value)
  {
  }

  lemma ListedBlock11(code: u32)
    requires 44 <= code < 48 && KeynameFromCode(code).Some?
    ensures ListedNameFacts(code, KeynameFromCode(code).value)
  {
  }

  lemma ListedBlock12(code: u32)
    requires 48 <= code < 52 && KeynameFromCode(code).Some?
    ensures ListedNameFacts(code, KeynameFromCode(code).value)
  {
  }

  lemma ListedBlock13(code: u32)
    requires 52 <= code < 56 && KeynameFromCode(code).Some?
    ensures ListedNameFacts(code, KeynameFromCode(code).value)
  {
  }

  lemma ListedBlock14(code: u32)
    requires 56 <= code < 60 && KeynameFromCode(code).Some?
    ensures ListedNameFacts(code, KeynameFromCode(code).value)
  {
  }

  lemma ListedBlock15(code: u32)
    requires 60 <= code < 64 && KeynameFromCode(code).Some?
    ensures ListedNameFacts(code, KeynameFromCode(code).value)
  {
  }

  lemma ListedBlock16(code: u32)
    requires 64 <= code < 68 && KeynameFromCode(code).Some?
    ensures ListedNameFacts(code, KeynameFromCode(code).value)
  {
  }

  lemma ListedBlock17(code: u32)
    requires 68 <= code < 72 && KeynameFromCode(code).Some?
    ensures ListedNameFacts(code, KeynameFromCode(code).value)
  {
  }

  lemma ListedBlock18(code: u32)
    requires 72 <= code < 76 && KeynameFromCode(code).Some?
    ensures ListedNameFacts(code, KeynameFromCode(code).value)
  {
  }

  lemma ListedBlock19(code: u32)
    requires 76 <= code < 80 && KeynameFromCode(code).Some?
    ensures ListedNameFacts(code, KeynameFromCode(code).value)
  {
  }

  lemma ListedBlock20(code: u32)
    requires 80 <= code < 84 && KeynameFromCode(code).Some?
    ensures ListedNameFacts(code, KeynameFromCode(code).value)
  {
  }

  lemma ListedBlock21(code: u32)
    requires 84 <= code < 88 && KeynameFromCode(code).Some?
    ensures ListedNameFacts(code, KeynameFromCode(code).value)
  {
  }

  lemma ListedBlock22(code: u32)
    requires 88 <= code < 92 && KeynameFromCode(code).Some?
    ensures ListedNameFacts(code, KeynameFromCode(code).value)
  {
  }

  lemma ListedBlock23(code: u32)
    requires 92 <= code < 96 && KeynameFromCode(code).Some?
    ensures ListedNameFacts(code, KeynameFromCode(code).value)
  {
  }

  lemma ListedBlock24(code: u32)
    requires 96 <= code < 100 && KeynameFromCode(code).Some?
    ensures ListedNameFacts(code, KeynameFromCode(code).value)
  {
  }

  lemma ListedBlock25(code: u32)
    requires 100 <= code < 104 && KeynameFromCode(code).Some?
    ensures ListedNameFacts(code, KeynameFromCode(code).value)
  {
  }

  lemma ListedBlock26(code: u32)
    requires 104 <= code < 108 && KeynameFromCode(code).Some?
    ensures ListedNameFacts(code, KeynameFromCode(code).value)
  {
  }

  lemma ListedBlock27(code: u32)
    requires 108 <= code < 112 && KeynameFromCode(code).Some?
    ensures ListedNameFacts(code, KeynameFromCode(code).value)
  {
  }

  lemma ListedBlock28(code: u32)
    requires 112 <= code < 116 && KeynameFromCode(code).Some?
    ensures ListedNameFacts(code, KeynameFromCode(code).value)
  {
  }

  lemma ListedBlock29(code: u32)
    requires 116 <= code < 120 && KeynameFromCode(code).Some?
    ensures ListedNameFacts(code, KeynameFromCode(code).value)
  {
  }

  lemma ListedBlock30(code: u32)
    requires 120 <= code < 124 && KeynameFromCode(code).Some?
    ensures ListedNameFacts(code, KeynameFromCode(code).value)
  {
  }

  lemma ListedBlock31(code: u32)
    requires 124 <= code < 128 && KeynameFromCode(code).Some?
    ensures ListedNameFacts(code, KeynameFromCode(code).value)
  {
  }

  /** Two distinct codes never have the same name. */
  lemma KeynameInjective(a: u32, b: u32)
    requires KeynameFromCode(a).Some? && KeynameFromCode(a) == KeynameFromCode(b)
    ensures a == b
  {
    KeynameListed(a);
    KeynameListed(b);
  }

  /** A few entries of the table: Escape, Return and Space. */
  lemma KeynameSamples()
    ensures KeynameFromCode(1) == Some("Escape")
    ensures KeynameFromCode(28) == Some("Return")
    ensures KeynameFromCode(57) == Some("Space")
  {
  }

  /** The codes inside 1..127 that the table does not name. */
  const UNLISTED_CODES: set<int> := {84, 85, 95, 112, 116, 118, 120, 122, 123}

  /** The table names exactly the codes 1..127 other than the unlisted ones. */
  lemma KeynameDomain(code: u32)
    ensures KeynameFromCode(code).Some? <==> 1 <= code <= 127 && code !in UNLISTED_CODES
  {
  }
}
