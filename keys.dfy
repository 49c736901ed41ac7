/**
 * Input events, output actions and the two key tables of the translator
 * (`hexKeyMap` and `numpadKeyMap`).
 */
module Keys {
  import opened Numerals

  /**
   * Key identities, named after the evdev scancodes the translator mentions.
   * KeyOther stands for every scancode the translator does not name.
   */
  datatype Key =
    | KeyLeftAlt | KeyRightAlt | KeyLeftCtrl | KeyLeftShift | KeyU | KeyEnter
    | Key0 | Key1 | Key2 | Key3 | Key4 | Key5 | Key6 | Key7 | Key8 | Key9
    | KeyA | KeyB | KeyC | KeyD | KeyE | KeyF
    | KeyKp0 | KeyKp1 | KeyKp2 | KeyKp3 | KeyKp4 | KeyKp5 | KeyKp6 | KeyKp7 | KeyKp8 | KeyKp9
    | KeyOther(scancode: nat)

  /** evdev key states: 0 released, 1 pressed, 2 autorepeat. */
  datatype KeyState = Up | Down | Hold

  /** An event read from the physical device: a key event (EV_KEY) or an event of any other type, whose contents the translator ignores. */
  datatype InputEvent =
    | KeyEvent(key: Key, state: KeyState)
    | OtherEvent

  /** One action on the virtual device: a key write or a synchronisation report. */
  datatype Out = Write(key: Key, state: KeyState) | Syn

  /** Hexadecimal digit characters to the keys that type them. */
  const HexKeyMap: map<char, Key> := map[
    '0' := Key0, '1' := Key1, '2' := Key2, '3' := Key3, '4' := Key4,
    '5' := Key5, '6' := Key6, '7' := Key7, '8' := Key8, '9' := Key9,
    'A' := KeyA, 'B' := KeyB, 'C' := KeyC, 'D' := KeyD, 'E' := KeyE, 'F' := KeyF
  ]

  /** Numeric-keypad digit keys to the digit characters they add to an alt code. */
  const NumpadKeyMap: map<Key, char> := map[
    KeyKp0 := '0', KeyKp1 := '1', KeyKp2 := '2', KeyKp3 := '3', KeyKp4 := '4',
    KeyKp5 := '5', KeyKp6 := '6', KeyKp7 := '7', KeyKp8 := '8', KeyKp9 := '9'
  ]

  /** The hex key table covers exactly the upper-case hexadecimal digits. */
  lemma HexKeyMapCoversHexDigits(c: char)
    ensures c in HexKeyMap <==> IsUpperHexDigit(c)
  {
  }

  /** Distinct hex digits are typed with distinct keys, and never with a modifier, U, Enter or ALT. */
  lemma HexKeyMapInjective(c1: char, c2: char)
    requires c1 in HexKeyMap && c2 in HexKeyMap
    ensures HexKeyMap[c1] == HexKeyMap[c2] ==> c1 == c2
    ensures HexKeyMap[c1] !in {KeyLeftAlt, KeyRightAlt, KeyLeftCtrl, KeyLeftShift, KeyU, KeyEnter}
  {
  }

  /** Every keypad key adds a decimal digit, and no keypad key is ALT or a key used to type hex digits. */
  lemma NumpadKeyMapDigits(k: Key)
    requires k in NumpadKeyMap
    ensures IsDigit(NumpadKeyMap[k])
    ensures k != KeyLeftAlt && k !in HexKeyMap.Values
  {
  }

  /** Distinct keypad keys add distinct digits. */
  lemma NumpadKeyMapInjective(k1: Key, k2: Key)
    requires k1 in NumpadKeyMap && k2 in NumpadKeyMap
    ensures NumpadKeyMap[k1] == NumpadKeyMap[k2] ==> k1 == k2
  {
  }
}
