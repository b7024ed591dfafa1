/**
 * The two key tables of lib/common/src/ContextInput.cc. Keys are the `KeyboardInput`
 * enumerator values (`KeyboardUnknown` = 0, `KeyboardA` = 1, ..., `KeyboardWorld2` = 120);
 * codes are the key codes of GLFW's `glfw3.h`. Each switch is written as a dispatch on
 * the key family followed by one `match` per family, so that every case of the switch
 * appears exactly once and the prover evaluates short matches.
 */
module ContextInput {
  const KeyboardUnknown: int := 0
  /** `KeyboardInput::KeyboardTotal`: one past the last key. */
  const KeyboardTotal: int := 121
  /** `GLFW_KEY_UNKNOWN`. */
  const GlfwKeyUnknown: int := -1

  /** A key the tables know: every enumerator between `KeyboardUnknown` and `KeyboardTotal`. */
  predicate Mapped(key: int) {
    KeyboardUnknown < key < KeyboardTotal
  }

  /** `__ConvertKeyboardInputToGLFWEnum`: any other value, `KeyboardUnknown` included, is `GLFW_KEY_UNKNOWN`. */
  function KeyToGlfw(key: int): int {
    if 1 <= key <= 36 then AlphanumericCode(key)
    else if 37 <= key <= 55 then NavigationCode(key)
    else if 56 <= key <= 80 then FunctionKeyCode(key)
    else if 81 <= key <= 106 then KeypadModifierCode(key)
    else if 107 <= key <= 120 then PunctuationCode(key)
    else GlfwKeyUnknown
  }

  /** Letters and digits. */
  function AlphanumericCode(key: int): int {
    match key
    case 1 => 65  // A
    case 2 => 66  // B
    case 3 => 67  // C
    case 4 => 68  // D
    case 5 => 69  // E
    case 6 => 70  // F
    case 7 => 71  // G
    case 8 => 72  // H
    case 9 => 73  // I
    case 10 => 74  // J
    case 11 => 75  // K
    case 12 => 76  // L
    case 13 => 77  // M
    case 14 => 78  // N
    case 15 => 79  // O
    case 16 => 80  // P
    case 17 => 81  // Q
    case 18 => 82  // R
    case 19 => 83  // S
    case 20 => 84  // T
    case 21 => 85  // U
    case 22 => 86  // V
    case 23 => 87  // W
    case 24 => 88  // X
    case 25 => 89  // Y
    case 26 => 90  // Z
    case 27 => 48  // 0
    case 28 => 49  // 1
    case 29 => 50  // 2
    case 30 => 51  // 3
    case 31 => 52  // 4
    case 32 => 53  // 5
    case 33 => 54  // 6
    case 34 => 55  // 7
    case 35 => 56  // 8
    case 36 => 57  // 9
    case _ => GlfwKeyUnknown
  }

  /** Editing, navigation and lock keys. */
  function NavigationCode(key: int): int {
    match key
    case 37 => 256  // Escape
    case 38 => 257  // Enter
    case 39 => 258  // Tab
    case 40 => 259  // Backspace
    case 41 => 260  // Insert
    case 42 => 261  // Delete
    case 43 => 262  // Right
    case 44 => 263  // Left
    case 45 => 264  // Down
    case 46 => 265  // Up
    case 47 => 266  // PageUp
    case 48 => 267  // PageDown
    case 49 => 268  // Home
    case 50 => 269  // End
    case 51 => 280  // CapsLock
    case 52 => 281  // ScrollLock
    case 53 => 282  // NumLock
    case 54 => 283  // PrintScreen
    case 55 => 284  // Pause
    case _ => GlfwKeyUnknown
  }

  /** `KeyboardF1` to `KeyboardF25`. */
  function FunctionKeyCode(key: int): int {
    match key
    case 56 => 290  // F1
    case 57 => 291  // F2
    case 58 => 292  // F3
    case 59 => 293  // F4
    case 60 => 294  // F5
    case 61 => 295  // F6
    case 62 => 296  // F7
    case 63 => 297  // F8
    case 64 => 298  // F9
    case 65 => 299  // F10
    case 66 => 300  // F11
    case 67 => 301  // F12
    case 68 => 302  // F13
    case 69 => 303  // F14
    case 70 => 304  // F15
    case 71 => 305  // F16
    case 72 => 306  // F17
    case 73 => 307  // F18
    case 74 => 308  // F19
    case 75 => 309  // F20
    case 76 => 310  // F21
    case 77 => 311  // F22
    case 78 => 312  // F23
    case 79 => 313  // F24
    case 80 => 314  // F25
    case _ => GlfwKeyUnknown
  }

  /** Keypad, modifier and menu keys. */
  function KeypadModifierCode(key: int): int {
    match key
    case 81 => 320  // KP0
    case 82 => 321  // KP1
    case 83 => 322  // KP2
    case 84 => 323  // KP3
    case 85 => 324  // KP4
    case 86 => 325  // KP5
    case 87 => 326  // KP6
    case 88 => 327  // KP7
    case 89 => 328  // KP8
    case 90 => 329  // KP9
    case 91 => 330  // KPDecimal
    case 92 => 331  // KPDivide
    case 93 => 332  // KPMultiply
    case 94 => 333  // KPSubtract
    case 95 => 334  // KPAdd
    case 96 => 335  // KPEnter
    case 97 => 336  // KPEqual
    case 98 => 340  // LeftShift
    case 99 => 341  // LeftControl
    case 100 => 342  // LeftAlt
    case 101 => 343  // LeftSuper
    case 102 => 344  // RightShift
    case 103 => 345  // RightControl
    case 104 => 346  // RightAlt
    case 105 => 347  // RightSuper
    case 106 => 348  // Menu
    case _ => GlfwKeyUnknown
  }

  /** Space, punctuation and the two international keys. */
  function PunctuationCode(key: int): int {
    match key
    case 107 => 32  // Space
    case 108 => 39  // Apostrophe
    case 109 => 44  // Comma
    case 110 => 45  // Minus
    case 111 => 46  // Period
    case 112 => 47  // Slash
    case 113 => 59  // Semicolon
    case 114 => 61  // Equal
    case 115 => 91  // LeftBracket
    case 116 => 92  // Backslash
    case 117 => 93  // RightBracket
    case 118 => 96  // GraveAccent
    case 119 => 161  // World1
    case 120 => 162  // World2
    case _ => GlfwKeyUnknown
  }

  /** `__ConvertGLFWEnumToKeyboardInput`: any other code is `KeyboardUnknown`. */
  function GlfwToKey(code: int): int {
    if 32 <= code <= 64 then PrintableKey(code)
    else if 65 <= code <= 90 then LetterKey(code)
    else if 91 <= code <= 162 then SymbolKey(code)
    else if 256 <= code <= 284 then NavigationKey(code)
    else if 290 <= code <= 314 then FunctionKey(code)
    else if 320 <= code <= 348 then KeypadModifierKey(code)
    else KeyboardUnknown
  }

  /** Space, punctuation before the letters, digits. */
  function PrintableKey(code: int): int {
    match code
    case 48 => 27  // 0
    case 49 => 28  // 1
    case 50 => 29  // 2
    case 51 => 30  // 3
    case 52 => 31  // 4
    case 53 => 32  // 5
    case 54 => 33  // 6
    case 55 => 34  // 7
    case 56 => 35  // 8
    case 57 => 36  // 9
    case 32 => 107  // Space
    case 39 => 108  // Apostrophe
    case 44 => 109  // Comma
    case 45 => 110  // Minus
    case 46 => 111  // Period
    case 47 => 112  // Slash
    case 59 => 113  // Semicolon
    case 61 => 114  // Equal
    case _ => KeyboardUnknown
  }

  /** `GLFW_KEY_A` to `GLFW_KEY_Z`. */
  function LetterKey(code: int): int {
    match code
    case 65 => 1  // A
    case 66 => 2  // B
    case 67 => 3  // C
    case 68 => 4  // D
    case 69 => 5  // E
    case 70 => 6  // F
    case 71 => 7  // G
    case 72 => 8  // H
    case 73 => 9  // I
    case 74 => 10  // J
    case 75 => 11  // K
    case 76 => 12  // L
    case 77 => 13  // M
    case 78 => 14  // N
    case 79 => 15  // O
    case 80 => 16  // P
    case 81 => 17  // Q
    case 82 => 18  // R
    case 83 => 19  // S
    case 84 => 20  // T
    case 85 => 21  // U
    case 86 => 22  // V
    case 87 => 23  // W
    case 88 => 24  // X
    case 89 => 25  // Y
    case 90 => 26  // Z
    case _ => KeyboardUnknown
  }

  /** Brackets, backslash, grave accent and the two international keys. */
  function SymbolKey(code: int): int {
    match code
    case 91 => 115  // LeftBracket
    case 92 => 116  // Backslash
    case 93 => 117  // RightBracket
    case 96 => 118  // GraveAccent
    case 161 => 119  // World1
    case 162 => 120  // World2
    case _ => KeyboardUnknown
  }

  /** Editing, navigation and lock keys. */
  function NavigationKey(code: int): int {
    match code
    case 256 => 37  // Escape
    case 257 => 38  // Enter
    case 258 => 39  // Tab
    case 259 => 40  // Backspace
    case 260 => 41  // Insert
    case 261 => 42  // Delete
    case 262 => 43  // Right
    case 263 => 44  // Left
    case 264 => 45  // Down
    case 265 => 46  // Up
    case 266 => 47  // PageUp
    case 267 => 48  // PageDown
    case 268 => 49  // Home
    case 269 => 50  // End
    case 280 => 51  // CapsLock
    case 281 => 52  // ScrollLock
    case 282 => 53  // NumLock
    case 283 => 54  // PrintScreen
    case 284 => 55  // Pause
    case _ => KeyboardUnknown
  }

  /** `GLFW_KEY_F1` to `GLFW_KEY_F25`. */
  function FunctionKey(code: int): int {
    match code
    case 290 => 56  // F1
    case 291 => 57  // F2
    case 292 => 58  // F3
    case 293 => 59  // F4
    case 294 => 60  // F5
    case 295 => 61  // F6
    case 296 => 62  // F7
    case 297 => 63  // F8
    case 298 => 64  // F9
    case 299 => 65  // F10
    case 300 => 66  // F11
    case 301 => 67  // F12
    case 302 => 68  // F13
    case 303 => 69  // F14
    case 304 => 70  // F15
    case 305 => 71  // F16
    case 306 => 72  // F17
    case 307 => 73  // F18
    case 308 => 74  // F19
    case 309 => 75  // F20
    case 310 => 76  // F21
    case 311 => 77  // F22
    case 312 => 78  // F23
    case 313 => 79  // F24
    case 314 => 80  // F25
    case _ => KeyboardUnknown
  }

  /** Keypad, modifier and menu keys. */
  function KeypadModifierKey(code: int): int {
    match code
    case 320 => 81  // KP0
    case 321 => 82  // KP1
    case 322 => 83  // KP2
    case 323 => 84  // KP3
    case 324 => 85  // KP4
    case 325 => 86  // KP5
    case 326 => 87  // KP6
    case 327 => 88  // KP7
    case 328 => 89  // KP8
    case 329 => 90  // KP9
    case 330 => 91  // KPDecimal
    case 331 => 92  // KPDivide
    case 332 => 93  // KPMultiply
    case 333 => 94  // KPSubtract
    case 334 => 95  // KPAdd
    case 335 => 96  // KPEnter
    case 336 => 97  // KPEqual
    case 340 => 98  // LeftShift
    case 341 => 99  // LeftControl
    case 342 => 100  // LeftAlt
    case 343 => 101  // LeftSuper
    case 344 => 102  // RightShift
    case 345 => 103  // RightControl
    case 346 => 104  // RightAlt
    case 347 => 105  // RightSuper
    case 348 => 106  // Menu
    case _ => KeyboardUnknown
  }

  /** Letters and digits survive the trip to GLFW and back. */
  lemma AlphanumericKeysRoundTrip(key: int)
    requires 1 <= key <= 36
    ensures GlfwToKey(KeyToGlfw(key)) == key
  {
  }

  /** Editing, navigation and lock keys survive the trip to GLFW and back. */
  lemma NavigationKeysRoundTrip(key: int)
    requires 37 <= key <= 55
    ensures GlfwToKey(KeyToGlfw(key)) == key
  {
  }

  /** Function keys survive the trip to GLFW and back. */
  lemma FunctionKeyKeysRoundTrip(key: int)
    requires 56 <= key <= 80
    ensures GlfwToKey(KeyToGlfw(key)) == key
  {
  }

  /** Keypad, modifier and menu keys survive the trip to GLFW and back. */
  lemma KeypadModifierKeysRoundTrip(key: int)
    requires 81 <= key <= 106
    ensures GlfwToKey(KeyToGlfw(key)) == key
  {
  }

  /** Space, punctuation and international keys survive the trip to GLFW and back. */
  lemma PunctuationKeysRoundTrip(key: int)
    requires 107 <= key <= 120
    ensures GlfwToKey(KeyToGlfw(key)) == key
  {
  }

  /** Every key except `KeyboardUnknown` survives the trip to GLFW and back. */
  lemma KeyRoundTrip(key: int)
    requires Mapped(key)
    ensures GlfwToKey(KeyToGlfw(key)) == key
  {
    if key <= 36 {
      AlphanumericKeysRoundTrip(key);
    } else if key <= 55 {
      NavigationKeysRoundTrip(key);
    } else if key <= 80 {
      FunctionKeyKeysRoundTrip(key);
    } else if key <= 106 {
      KeypadModifierKeysRoundTrip(key);
    } else {
      PunctuationKeysRoundTrip(key);
    }
  }

  /** Codes of space, punctuation and digits that name a key convert back from that key. */
  lemma PrintableCodesRoundTrip(code: int)
    requires 32 <= code <= 64 && GlfwToKey(code) != KeyboardUnknown
    ensures Mapped(GlfwToKey(code)) && KeyToGlfw(GlfwToKey(code)) == code
  {
  }

  /** Letter codes that name a key convert back from that key. */
  lemma LetterCodesRoundTrip(code: int)
    requires 65 <= code <= 90 && GlfwToKey(code) != KeyboardUnknown
    ensures Mapped(GlfwToKey(code)) && KeyToGlfw(GlfwToKey(code)) == code
  {
  }

  /** Bracket, backslash, grave accent and international codes that name a key convert back from that key. */
  lemma SymbolCodesRoundTrip(code: int)
    requires 91 <= code <= 162 && GlfwToKey(code) != KeyboardUnknown
    ensures Mapped(GlfwToKey(code)) && KeyToGlfw(GlfwToKey(code)) == code
  {
  }

  /** Editing, navigation and lock codes that name a key convert back from that key. */
  lemma NavigationCodesRoundTrip(code: int)
    requires 256 <= code <= 284 && GlfwToKey(code) != KeyboardUnknown
    ensures Mapped(GlfwToKey(code)) && KeyToGlfw(GlfwToKey(code)) == code
  {
  }

  /** Function key codes that name a key convert back from that key. */
  lemma FunctionKeyCodesRoundTrip(code: int)
    requires 290 <= code <= 314 && GlfwToKey(code) != KeyboardUnknown
    ensures Mapped(GlfwToKey(code)) && KeyToGlfw(GlfwToKey(code)) == code
  {
  }

  /** Keypad, modifier and menu codes that name a key convert back from that key. */
  lemma KeypadModifierCodesRoundTrip(code: int)
    requires 320 <= code <= 348 && GlfwToKey(code) != KeyboardUnknown
    ensures Mapped(GlfwToKey(code)) && KeyToGlfw(GlfwToKey(code)) == code
  {
  }

  /** Every GLFW code that converts to a key converts back to itself. */
  lemma CodeRoundTrip(code: int)
    requires GlfwToKey(code) != KeyboardUnknown
    ensures Mapped(GlfwToKey(code)) && KeyToGlfw(GlfwToKey(code)) == code
  {
    if code <= 64 {
      PrintableCodesRoundTrip(code);
    } else if code <= 90 {
      LetterCodesRoundTrip(code);
    } else if code <= 162 {
      SymbolCodesRoundTrip(code);
    } else if code <= 284 {
      NavigationCodesRoundTrip(code);
    } else if code <= 314 {
      FunctionKeyCodesRoundTrip(code);
    } else {
      KeypadModifierCodesRoundTrip(code);
    }
  }

  /** No two keys share a GLFW code. */
  lemma KeyToGlfwInjective(a: int, b: int)
    requires Mapped(a) && Mapped(b) && KeyToGlfw(a) == KeyToGlfw(b)
    ensures a == b
  {
    KeyRoundTrip(a);
    KeyRoundTrip(b);
  }

  /** Exactly the values outside the table (`KeyboardUnknown`, `KeyboardTotal`, ...) become `GLFW_KEY_UNKNOWN`. */
  lemma UnmappedKeys(key: int)
    ensures KeyToGlfw(key) == GlfwKeyUnknown <==> !Mapped(key)
  {
    if Mapped(key) {
      KeyRoundTrip(key);
    }
  }

  /** Exactly the codes no key converts to become `KeyboardUnknown`. */
  lemma UnmappedCodes(code: int)
    ensures GlfwToKey(code) == KeyboardUnknown <==> forall key | Mapped(key) :: KeyToGlfw(key) != code
  {
    if GlfwToKey(code) != KeyboardUnknown {
      CodeRoundTrip(code);
    } else {
      forall key | Mapped(key)
        ensures KeyToGlfw(key) != code
      {
        KeyRoundTrip(key);
      }
    }
  }
}
