/** Injection of received events on Windows: the scancode table, the dispatch, and the keys held down. */
module WindowsEmitter {
  import opened Prelude
  import opened InputEvents
  import opened MoveAggregators

  datatype ScanCode = ScanCode(scan: UInt16, extended: bool)

  const UNMAPPED: ScanCode := ScanCode(0, false)

  /** USB HID usage to PS/2 set 1 scancode; 0 for an unmapped code. */
  function HidToWinScan(hid: UInt16): ScanCode {
    match hid
    case 30 => ScanCode(0x02, false) // 1
    case 31 => ScanCode(0x03, false) // 2
    case 32 => ScanCode(0x04, false) // 3
    case 33 => ScanCode(0x05, false) // 4
    case 34 => ScanCode(0x06, false) // 5
    case 35 => ScanCode(0x07, false) // 6
    case 36 => ScanCode(0x08, false) // 7
    case 37 => ScanCode(0x09, false) // 8
    case 38 => ScanCode(0x0A, false) // 9
    case 39 => ScanCode(0x0B, false) // 0
    case 45 => ScanCode(0x0C, false) // -
    case 46 => ScanCode(0x0D, false) // =
    case 42 => ScanCode(0x0E, false) // Backspace
    case 43 => ScanCode(0x0F, false) // Tab
    case 4 => ScanCode(0x1E, false) // A
    case 5 => ScanCode(0x30, false) // B
    case 6 => ScanCode(0x2E, false) // C
    case 7 => ScanCode(0x20, false) // D
    case 8 => ScanCode(0x12, false) // E
    case 9 => ScanCode(0x21, false) // F
    case 10 => ScanCode(0x22, false) // G
    case 11 => ScanCode(0x23, false) // H
    case 12 => ScanCode(0x17, false) // I
    case 13 => ScanCode(0x24, false) // J
    case 14 => ScanCode(0x25, false) // K
    case 15 => ScanCode(0x26, false) // L
    case 16 => ScanCode(0x32, false) // M
    case 17 => ScanCode(0x31, false) // N
    case 18 => ScanCode(0x18, false) // O
    case 19 => ScanCode(0x19, false) // P
    case 20 => ScanCode(0x10, false) // Q
    case 21 => ScanCode(0x13, false) // R
    case 22 => ScanCode(0x1F, false) // S
    case 23 => ScanCode(0x14, false) // T
    case 24 => ScanCode(0x16, false) // U
    case 25 => ScanCode(0x2F, false) // V
    case 26 => ScanCode(0x11, false) // W
    case 27 => ScanCode(0x2D, false) // X
    case 28 => ScanCode(0x15, false) // Y
    case 29 => ScanCode(0x2C, false) // Z
    case 47 => ScanCode(0x1A, false) // [
    case 48 => ScanCode(0x1B, false) // ]
    case 51 => ScanCode(0x27, false) // ;
    case 52 => ScanCode(0x28, false) // '
    case 53 => ScanCode(0x29, false) // `
    case 49 => ScanCode(0x2B, false) // backslash
    case 54 => ScanCode(0x33, false) // ,
    case 55 => ScanCode(0x34, false) // .
    case 56 => ScanCode(0x35, false) // /
    case 40 => ScanCode(0x1C, false) // Enter
    case 41 => ScanCode(0x01, false) // Escape
    case 44 => ScanCode(0x39, false) // Space
    case 57 => ScanCode(0x3A, false) // CapsLock
    case 224 => ScanCode(0x1D, false) // Left Ctrl
    case 225 => ScanCode(0x2A, false) // Left Shift
    case 226 => ScanCode(0x38, false) // Left Alt
    case 227 => ScanCode(0x5B, true) // Left GUI (Win)
    case 228 => ScanCode(0x1D, true) // Right Ctrl (E0 1D)
    case 229 => ScanCode(0x36, false) // Right Shift
    case 230 => ScanCode(0x38, true) // Right Alt (AltGr)
    case 231 => ScanCode(0x5C, true) // Right GUI
    case 73 => ScanCode(0x52, true) // Insert
    case 76 => ScanCode(0x53, true) // Delete
    case 74 => ScanCode(0x49, true) // PageUp
    case 78 => ScanCode(0x51, true) // PageDown
    case 75 => ScanCode(0x47, true) // Home
    case 77 => ScanCode(0x4F, true) // End
    case 82 => ScanCode(0x48, true) // Up Arrow
    case 81 => ScanCode(0x50, true) // Down Arrow
    case 80 => ScanCode(0x4B, true) // Left Arrow
    case 79 => ScanCode(0x4D, true) // Right Arrow
    case 58 => ScanCode(0x3B, false) // F1
    case 59 => ScanCode(0x3C, false) // F2
    case 60 => ScanCode(0x3D, false) // F3
    case 61 => ScanCode(0x3E, false) // F4
    case 62 => ScanCode(0x3F, false) // F5
    case 63 => ScanCode(0x40, false) // F6
    case 64 => ScanCode(0x41, false) // F7
    case 65 => ScanCode(0x42, false) // F8
    case 66 => ScanCode(0x43, false) // F9
    case 67 => ScanCode(0x44, false) // F10
    case 68 => ScanCode(0x57, false) // F11
    case 69 => ScanCode(0x58, false) // F12
    case _ => UNMAPPED
  }

  predicate Supported(hid: UInt16) {
    HidToWinScan(hid).scan != 0
  }

  /** The code a scancode comes from; a second table, read the other way. */
  function WinScanToHid(s: ScanCode): UInt16 {
    if s.extended then
      match s.scan
      case 0x1D => 228
      case 0x38 => 230
      case 0x47 => 75
      case 0x48 => 82
      case 0x49 => 74
      case 0x4B => 80
      case 0x4D => 79
      case 0x4F => 77
      case 0x50 => 81
      case 0x51 => 78
      case 0x52 => 73
      case 0x53 => 76
      case 0x5B => 227
      case 0x5C => 231
      case _ => 0
    else
      match s.scan
      case 0x01 => 41
      case 0x02 => 30
      case 0x03 => 31
      case 0x04 => 32
      case 0x05 => 33
      case 0x06 => 34
      case 0x07 => 35
      case 0x08 => 36
      case 0x09 => 37
      case 0x0A => 38
      case 0x0B => 39
      case 0x0C => 45
      case 0x0D => 46
      case 0x0E => 42
      case 0x0F => 43
      case 0x10 => 20
      case 0x11 => 26
      case 0x12 => 8
      case 0x13 => 21
      case 0x14 => 23
      case 0x15 => 28
      case 0x16 => 24
      case 0x17 => 12
      case 0x18 => 18
      case 0x19 => 19
      case 0x1A => 47
      case 0x1B => 48
      case 0x1C => 40
      case 0x1D => 224
      case 0x1E => 4
      case 0x1F => 22
      case 0x20 => 7
      case 0x21 => 9
      case 0x22 => 10
      case 0x23 => 11
      case 0x24 => 13
      case 0x25 => 14
      case 0x26 => 15
      case 0x27 => 51
      case 0x28 => 52
      case 0x29 => 53
      case 0x2A => 225
      case 0x2B => 49
      case 0x2C => 29
      case 0x2D => 27
      case 0x2E => 6
      case 0x2F => 25
      case 0x30 => 5
      case 0x31 => 17
      case 0x32 => 16
      case 0x33 => 54
      case 0x34 => 55
      case 0x35 => 56
      case 0x36 => 229
      case 0x38 => 226
      case 0x39 => 44
      case 0x3A => 57
      case 0x3B => 58
      case 0x3C => 59
      case 0x3D => 60
      case 0x3E => 61
      case 0x3F => 62
      case 0x40 => 63
      case 0x41 => 64
      case 0x42 => 65
      case 0x43 => 66
      case 0x44 => 67
      case 0x57 => 68
      case 0x58 => 69
      case _ => 0
  }

  lemma ScanTableLowLetters(hid: UInt16)
    requires hid < 18 && Supported(hid)
    ensures WinScanToHid(HidToWinScan(hid)) == hid
  {
  }

  lemma ScanTableHighLetters(hid: UInt16)
    requires 18 <= hid < 30 && Supported(hid)
    ensures WinScanToHid(HidToWinScan(hid)) == hid
  {
  }

  lemma ScanTableDigits(hid: UInt16)
    requires 30 <= hid < 44 && Supported(hid)
    ensures WinScanToHid(HidToWinScan(hid)) == hid
  {
  }

  lemma ScanTableSymbols(hid: UInt16)
    requires 44 <= hid < 58 && Supported(hid)
    ensures WinScanToHid(HidToWinScan(hid)) == hid
  {
  }

  lemma ScanTableLowFunctions(hid: UInt16)
    requires 58 <= hid < 62 && Supported(hid)
    ensures WinScanToHid(HidToWinScan(hid)) == hid
  {
  }

  lemma ScanTableMidFunctions(hid: UInt16)
    requires 62 <= hid < 66 && Supported(hid)
    ensures WinScanToHid(HidToWinScan(hid)) == hid
  {
  }

  lemma ScanTableHighFunctions(hid: UInt16)
    requires 66 <= hid < 70 && Supported(hid)
    ensures WinScanToHid(HidToWinScan(hid)) == hid
  {
  }

  lemma ScanTableOthers(hid: UInt16)
    requires 70 <= hid && Supported(hid)
    ensures WinScanToHid(HidToWinScan(hid)) == hid
  {
  }

  /** The second table undoes the first, so no two supported codes share a scancode. */
  lemma ScanTableInverse(hid: UInt16)
    requires Supported(hid)
    ensures WinScanToHid(HidToWinScan(hid)) == hid
  {
    if hid < 18 {
      ScanTableLowLetters(hid);
    } else if hid < 30 {
      ScanTableHighLetters(hid);
    } else if hid < 44 {
      ScanTableDigits(hid);
    } else if hid < 58 {
      ScanTableSymbols(hid);
    } else if hid < 62 {
      ScanTableLowFunctions(hid);
    } else if hid < 66 {
      ScanTableMidFunctions(hid);
    } else if hid < 70 {
      ScanTableHighFunctions(hid);
    } else {
      ScanTableOthers(hid);
    }
  }

  lemma ScanTableInjective(a: UInt16, b: UInt16)
    requires Supported(a) && Supported(b) && HidToWinScan(a) == HidToWinScan(b)
    ensures a == b
  {
    ScanTableInverse(a);
    ScanTableInverse(b);
  }

  /** Consecutive scancodes, not extended, for these keys. */
  predicate Row(first: nat, keys: seq<UInt16>)
    requires first + |keys| <= 0x100
  {
    forall i :: 0 <= i < |keys| ==> HidToWinScan(keys[i]) == ScanCode(first + i, false)
  }

  function LetterKey(c: char): UInt16
    requires 'A' <= c <= 'Z'
  {
    4 + (c - 'A') as int
  }

  /** Letters sit on three rows of consecutive scancodes, in the order printed on the keys. */
  lemma LetterRows()
    ensures forall i :: 0 <= i < 10 ==> HidToWinScan(LetterKey("QWERTYUIOP"[i])) == ScanCode(0x10 + i, false)
    ensures forall i :: 0 <= i < 9 ==> HidToWinScan(LetterKey("ASDFGHJKL"[i])) == ScanCode(0x1E + i, false)
    ensures forall i :: 0 <= i < 7 ==> HidToWinScan(LetterKey("ZXCVBNM"[i])) == ScanCode(0x2C + i, false)
  {
  }

  /** So do escape, the digits 1 to 0, minus, equals, backspace and tab. */
  lemma DigitRow()
    ensures Row(0x01, [41, 30, 31, 32, 33, 34, 35])
    ensures Row(0x08, [36, 37, 38, 39, 45, 46, 42, 43])
  {
  }

  /** And the keys around the letters. */
  lemma TopRowEnd()
    ensures Row(0x1A, [47, 48, 40, 224])
  {
  }

  lemma HomeRowEnd()
    ensures Row(0x27, [51, 52, 53, 225, 49])
  {
  }

  lemma BottomRowEnd()
    ensures Row(0x33, [54, 55, 56, 229])
  {
  }

  lemma SpaceRow()
    ensures Row(0x38, [226, 44, 57])
  {
  }

  /** F1 to F10 follow each other, then F11 and F12. */
  lemma FunctionRow()
    ensures forall hid: UInt16 :: 58 <= hid < 68 ==> HidToWinScan(hid) == ScanCode(0x3B + (hid - 58), false)
    ensures forall hid: UInt16 :: 68 <= hid < 70 ==> HidToWinScan(hid) == ScanCode(0x57 + (hid - 68), false)
  {
  }

  /** The navigation keys are the extended twins of the keypad. */
  lemma NavigationKeys()
    ensures HidToWinScan(75) == ScanCode(0x47, true) && HidToWinScan(82) == ScanCode(0x48, true)
    ensures HidToWinScan(74) == ScanCode(0x49, true) && HidToWinScan(80) == ScanCode(0x4B, true)
    ensures HidToWinScan(79) == ScanCode(0x4D, true)
  {
  }

  lemma EditingKeys()
    ensures HidToWinScan(77) == ScanCode(0x4F, true)
    ensures HidToWinScan(81) == ScanCode(0x50, true) && HidToWinScan(78) == ScanCode(0x51, true)
    ensures HidToWinScan(73) == ScanCode(0x52, true) && HidToWinScan(76) == ScanCode(0x53, true)
  {
  }

  /** Right control and alt are the extended twins of the left ones; the two GUI keys are extended. */
  lemma ExtendedModifiers()
    ensures HidToWinScan(228) == HidToWinScan(224).(extended := true)
    ensures HidToWinScan(230) == HidToWinScan(226).(extended := true)
    ensures HidToWinScan(227) == ScanCode(0x5B, true) && HidToWinScan(231) == ScanCode(0x5C, true)
  {
  }

  // ---------- Dispatch ----------

  const WHEEL_DELTA: int := 120

  datatype Button = Left | Middle | Right | X1 | X2

  /** One record handed to SendInput; wheel data is an unsigned 32-bit word. */
  datatype Injection =
    | KeyInput(key: ScanCode, up: bool)
    | MotionInput(dx: Int32, dy: Int32)
    | WheelInput(data: int)
    | HWheelInput(data: int)
    | ButtonInput(button: Button, down: bool)

  function EmitKey(code: UInt16, down: bool): Option<Injection> {
    var key := HidToWinScan(code);
    if key.scan == 0 then None else Some(KeyInput(key, !down))
  }

  function ButtonOf(code: UInt16): Option<Button> {
    match code
    case 1 => Some(Left)
    case 2 => Some(Middle)
    case 3 => Some(Right)
    case 4 => Some(X1)
    case 5 => Some(X2)
    case _ => None
  }

  function EmitButton(code: UInt16, down: bool): Option<Injection> {
    var button := ButtonOf(code);
    if button.None? then None else Some(ButtonInput(button.value, down))
  }

  function WheelData(delta: Int32): int {
    (delta * WHEEL_DELTA) % TWO_TO_THE_32
  }

  /** What an event injects: at most one record. A key event with any action but Down releases. */
  function Emit(e: InputEvent): Option<Injection> {
    if e.kind == TYPE_KEY then EmitKey(e.code, e.action == ACTION_DOWN)
    else if e.kind == TYPE_MOUSE then
      if e.action == ACTION_MOVE then Some(MotionInput(e.dx, e.dy))
      else if e.action == ACTION_SCROLL then
        if e.dy != 0 then Some(WheelInput(WheelData(e.dy)))
        else if e.dx != 0 then Some(HWheelInput(WheelData(e.dx)))
        else None
      else if e.action == ACTION_DOWN then EmitButton(e.code, true)
      else if e.action == ACTION_UP then EmitButton(e.code, false)
      else None
    else None
  }

  function Records(i: Option<Injection>): seq<Injection> {
    if i.Some? then [i.value] else []
  }

  /** The records injected for a sequence of events, every injection succeeding. */
  function EmitAll(events: seq<InputEvent>): seq<Injection> {
    if |events| == 0 then []
    else EmitAll(events[..|events| - 1]) + Records(Emit(events[|events| - 1]))
  }

  // ---------- Held keys ----------

  function CodesAfter(held: set<UInt16>, e: InputEvent): set<UInt16> {
    if e.kind != TYPE_KEY || !Supported(e.code) then held
    else if e.action == ACTION_DOWN then held + {e.code}
    else held - {e.code}
  }

  function ScansAfter(held: set<ScanCode>, i: Option<Injection>): set<ScanCode> {
    if i.None? || !i.value.KeyInput? then held
    else if i.value.up then held - {i.value.key}
    else held + {i.value.key}
  }

  /** Supported codes whose last key event was a press. */
  function HeldCodes(events: seq<InputEvent>): (held: set<UInt16>)
    ensures forall c :: c in held ==> Supported(c)
  {
    if |events| == 0 then {}
    else CodesAfter(HeldCodes(events[..|events| - 1]), events[|events| - 1])
  }

  /** Scancodes the system holds down after these injections. */
  function HeldScans(log: seq<Injection>): set<ScanCode> {
    if |log| == 0 then {}
    else ScansAfter(HeldScans(log[..|log| - 1]), Some(log[|log| - 1]))
  }

  lemma HeldScansAppend(log: seq<Injection>, i: Option<Injection>)
    ensures HeldScans(log + Records(i)) == ScansAfter(HeldScans(log), i)
  {
    if i.Some? {
      assert (log + [i.value])[..|log|] == log;
    } else {
      assert log + Records(i) == log;
    }
  }

  function Image(codes: set<UInt16>): set<ScanCode> {
    set c | c in codes :: HidToWinScan(c)
  }

  lemma ImageStep(codes: set<UInt16>, c: UInt16)
    requires Supported(c) && forall x :: x in codes ==> Supported(x)
    ensures Image(codes + {c}) == Image(codes) + {HidToWinScan(c)}
    ensures Image(codes - {c}) == Image(codes) - {HidToWinScan(c)}
  {
    forall x | x in codes && HidToWinScan(x) == HidToWinScan(c) ensures x == c {
      ScanTableInjective(x, c);
    }
  }

  /** One event moves the held codes and the held scancodes alike. */
  lemma HeldStep(codes: set<UInt16>, e: InputEvent)
    requires forall x :: x in codes ==> Supported(x)
    ensures Image(CodesAfter(codes, e)) == ScansAfter(Image(codes), Emit(e))
  {
    if e.kind == TYPE_KEY && Supported(e.code) {
      ImageStep(codes, e.code);
    }
  }

  /** After any events, the held scancodes are exactly the scancodes of the held codes. */
  lemma {:induction false} HeldKeys(events: seq<InputEvent>)
    ensures HeldScans(EmitAll(events)) == Image(HeldCodes(events))
    decreases |events|
  {
    if |events| != 0 {
      var init, e := events[..|events| - 1], events[|events| - 1];
      HeldKeys(init);
      HeldStep(HeldCodes(init), e);
      HeldScansAppend(EmitAll(init), Emit(e));
    }
  }

  /** Unmapped codes change nothing, and two codes held together are never confused. */
  lemma HeldExactly(events: seq<InputEvent>, c: UInt16)
    requires Supported(c)
    ensures c in HeldCodes(events) <==> HidToWinScan(c) in HeldScans(EmitAll(events))
  {
    HeldKeys(events);
    forall x | x in HeldCodes(events) && HidToWinScan(x) == HidToWinScan(c) ensures x == c {
      ScanTableInjective(x, c);
    }
  }

  // ---------- Buttons, cursor and wheel ----------

  /** Supported buttons whose last mouse event was a press. */
  function HeldButtonCodes(events: seq<InputEvent>): set<UInt16> {
    if |events| == 0 then {}
    else
      var held, e := HeldButtonCodes(events[..|events| - 1]), events[|events| - 1];
      if e.kind != TYPE_MOUSE || ButtonOf(e.code).None? then held
      else if e.action == ACTION_DOWN then held + {e.code}
      else if e.action == ACTION_UP then held - {e.code}
      else held
  }

  /** Buttons the system holds down after these injections. */
  function HeldButtons(log: seq<Injection>): set<Button> {
    if |log| == 0 then {}
    else
      var held, i := HeldButtons(log[..|log| - 1]), log[|log| - 1];
      if !i.ButtonInput? then held else if i.down then held + {i.button} else held - {i.button}
  }

  /** How far these injections move the cursor. */
  function Displacement(log: seq<Injection>): Vec {
    if |log| == 0 then Vec(0, 0)
    else
      var d, i := Displacement(log[..|log| - 1]), log[|log| - 1];
      if i.MotionInput? then Vec(d.x + i.dx, d.y + i.dy) else d
  }

  /** How far the move events of a sequence go. */
  function Moved(events: seq<InputEvent>): Vec {
    if |events| == 0 then Vec(0, 0)
    else
      var d, e := Moved(events[..|events| - 1]), events[|events| - 1];
      if e.kind == TYPE_MOUSE && e.action == ACTION_MOVE then Vec(d.x + e.dx, d.y + e.dy) else d
  }

  lemma LogAppend(log: seq<Injection>, i: Option<Injection>)
    ensures i.None? ==> log + Records(i) == log
    ensures i.Some? && i.value.ButtonInput? ==>
              HeldButtons(log + Records(i)) ==
              if i.value.down then HeldButtons(log) + {i.value.button} else HeldButtons(log) - {i.value.button}
    ensures i.Some? && !i.value.ButtonInput? ==> HeldButtons(log + Records(i)) == HeldButtons(log)
    ensures i.Some? && i.value.MotionInput? ==>
              Displacement(log + Records(i)) == Vec(Displacement(log).x + i.value.dx, Displacement(log).y + i.value.dy)
    ensures i.Some? && !i.value.MotionInput? ==> Displacement(log + Records(i)) == Displacement(log)
  {
    if i.Some? {
      assert (log + Records(i))[..|log|] == log;
    }
  }

  /** After any events, a supported button is held exactly when its press was the last word on it. */
  lemma {:induction false} ButtonsHeld(events: seq<InputEvent>)
    ensures forall c: UInt16 :: ButtonOf(c).Some? ==>
              (c in HeldButtonCodes(events) <==> ButtonOf(c).value in HeldButtons(EmitAll(events)))
    decreases |events|
  {
    if |events| > 0 {
      var init := events[..|events| - 1];
      ButtonsHeld(init);
      LogAppend(EmitAll(init), Emit(events[|events| - 1]));
    }
  }

  /** The cursor moves by exactly the sum of the move events, whatever else is injected between. */
  lemma {:induction false} CursorFollows(events: seq<InputEvent>)
    ensures Displacement(EmitAll(events)) == Moved(events)
    decreases |events|
  {
    if |events| > 0 {
      var init := events[..|events| - 1];
      CursorFollows(init);
      LogAppend(EmitAll(init), Emit(events[|events| - 1]));
    }
  }

  /** The wheel word, read back as a signed integer, is 120 per notch exactly when that fits. */
  lemma WheelWord(delta: Int32)
    ensures Narrow32(WheelData(delta)) == delta * WHEEL_DELTA <==> FitsInt32(delta * WHEEL_DELTA)
  {
    var n := delta * WHEEL_DELTA;
    assert WheelData(delta) % TWO_TO_THE_32 == n % TWO_TO_THE_32;
    assert Narrow32(WheelData(delta)) == Narrow32(n);
  }

  /** How far these injections turn the two wheels, the words read as signed. */
  function VerticalTurn(log: seq<Injection>): int {
    if |log| == 0 then 0
    else
      var i := log[|log| - 1];
      VerticalTurn(log[..|log| - 1]) + if i.WheelInput? then Narrow32(i.data) else 0
  }

  function HorizontalTurn(log: seq<Injection>): int {
    if |log| == 0 then 0
    else
      var i := log[|log| - 1];
      HorizontalTurn(log[..|log| - 1]) + if i.HWheelInput? then Narrow32(i.data) else 0
  }

  predicate IsScroll(e: InputEvent) {
    e.kind == TYPE_MOUSE && e.action == ACTION_SCROLL
  }

  /** Vertical notches of the scrolls, and horizontal notches of those without vertical motion. */
  function ScrolledUp(events: seq<InputEvent>): int {
    if |events| == 0 then 0
    else
      var e := events[|events| - 1];
      ScrolledUp(events[..|events| - 1]) + if IsScroll(e) then e.dy else 0
  }

  function ScrolledAcross(events: seq<InputEvent>): int {
    if |events| == 0 then 0
    else
      var e := events[|events| - 1];
      ScrolledAcross(events[..|events| - 1]) + if IsScroll(e) && e.dy == 0 then e.dx else 0
  }

  predicate NotchesFit(events: seq<InputEvent>) {
    forall i :: 0 <= i < |events| && IsScroll(events[i]) ==>
      FitsInt32(events[i].dx * 120) && FitsInt32(events[i].dy * 120)
  }

  lemma TurnAppend(log: seq<Injection>, i: Option<Injection>)
    ensures VerticalTurn(log + Records(i)) ==
            VerticalTurn(log) + WheelWordOf(i)
    ensures HorizontalTurn(log + Records(i)) ==
            HorizontalTurn(log) + HWheelWordOf(i)
  {
    if i.Some? {
      assert (log + Records(i))[..|log|] == log;
    } else {
      assert log + Records(i) == log;
    }
  }

  function WheelWordOf(i: Option<Injection>): int {
    if i.Some? && i.value.WheelInput? then Narrow32(i.value.data) else 0
  }

  function HWheelWordOf(i: Option<Injection>): int {
    if i.Some? && i.value.HWheelInput? then Narrow32(i.value.data) else 0
  }

  /** What one event turns: the vertical wheel if it scrolls vertically, else the horizontal one. */
  lemma EventTurns(e: InputEvent)
    requires IsScroll(e) ==> FitsInt32(e.dx * 120) && FitsInt32(e.dy * 120)
    ensures WheelWordOf(Emit(e)) == if IsScroll(e) then 120 * e.dy else 0
    ensures HWheelWordOf(Emit(e)) == if IsScroll(e) && e.dy == 0 then 120 * e.dx else 0
  {
    WheelWord(e.dx);
    WheelWord(e.dy);
  }

  /** After any events whose notches fit, each wheel has turned 120 for every notch scrolled its way. */
  lemma {:induction false} WheelsFollow(events: seq<InputEvent>)
    requires NotchesFit(events)
    ensures VerticalTurn(EmitAll(events)) == 120 * ScrolledUp(events)
    ensures HorizontalTurn(EmitAll(events)) == 120 * ScrolledAcross(events)
    decreases |events|
  {
    if |events| > 0 {
      var n := |events| - 1;
      WheelsFollow(events[..n]);
      TurnAppend(EmitAll(events[..n]), Emit(events[n]));
      EventTurns(events[n]);
    }
  }

  /** The buttons by their numbers: 1 left, 2 middle, 3 right, 4 and 5 the extra ones; no other code. */
  lemma ButtonNumbers(e: InputEvent)
    requires e.kind == TYPE_MOUSE && (e.action == ACTION_DOWN || e.action == ACTION_UP)
    ensures var down := e.action == ACTION_DOWN;
            && (e.code == 1 ==> Emit(e) == Some(ButtonInput(Left, down)))
            && (e.code == 2 ==> Emit(e) == Some(ButtonInput(Middle, down)))
            && (e.code == 3 ==> Emit(e) == Some(ButtonInput(Right, down)))
            && (e.code == 4 ==> Emit(e) == Some(ButtonInput(X1, down)))
            && (e.code == 5 ==> Emit(e) == Some(ButtonInput(X2, down)))
            && (e.code == 0 || e.code > 5 ==> Emit(e) == None)
  {
  }
}
