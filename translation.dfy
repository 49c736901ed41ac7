/**
 * What the translator does to one input event and to a stream of them
 * (the body of the event loop at altcodes4linux.py:57-116), as functions of
 * the alt-code buffer `currentAltCode` and the event.
 */
module Translation {
  import opened Wrappers
  import opened Numerals
  import opened Keys
  import opened AltCode

  /** The buffer holds only decimal digits: only keypad digits are ever appended. */
  predicate ValidAltCode(altCode: Option<string>)
  {
    altCode.Some? ==> IsDigitString(altCode.value)
  }

  /** The result of one event: the new buffer and what was written, or the exception that ends the program. */
  datatype Outcome =
    | Continue(altCode: Option<string>, emitted: seq<Out>)
    | Crash(error: DecodeError)

  /** One key press and release, each followed by a synchronisation report. */
  function Pulse(key: Key): (o: seq<Out>)
    ensures |o| == 4 && o[0] == Write(key, Down) && o[2] == Write(key, Up) && o[1] == o[3] == Syn
  {
    [Write(key, Down), Syn, Write(key, Up), Syn]
  }

  /** The key pulses typing the characters of hex in order; a character without a key is skipped. */
  function HexKeyPresses(hex: string): (o: seq<Out>)
    ensures |o| % 4 == 0 && |o| <= 4 * |hex|
    decreases |hex|
  {
    if hex == [] then []
    else
      var c := hex[|hex| - 1];
      HexKeyPresses(hex[..|hex| - 1]) + (if c in HexKeyMap then Pulse(HexKeyMap[c]) else [])
  }

  /** Ctrl, Shift and U pressed together, then released together. */
  const CtrlShiftU: seq<Out> :=
    [Write(KeyLeftCtrl, Down), Write(KeyLeftShift, Down), Write(KeyU, Down), Syn,
     Write(KeyLeftCtrl, Up), Write(KeyLeftShift, Up), Write(KeyU, Up), Syn]

  /** Ctrl+Shift+U, the hex digits, Enter: the Linux "insert Unicode code point" key sequence. */
  function InjectionSequence(hex: string): (o: seq<Out>)
    ensures |o| == 12 + |HexKeyPresses(hex)|
    ensures o[..8] == CtrlShiftU && o[|o| - 4..] == Pulse(KeyEnter)
  {
    CtrlShiftU + HexKeyPresses(hex) + Pulse(KeyEnter)
  }

  /** The key events the translator acts on itself; every other key event is forwarded. */
  predicate IsAltCodeEvent(altCode: Option<string>, key: Key, state: KeyState)
  {
    (key == KeyLeftAlt && state != Hold) || (key in NumpadKeyMap && state != Hold && altCode.Some?)
  }

  /** One pass of the event loop. */
  function Next(altCode: Option<string>, ev: InputEvent): (r: Outcome)
    requires ValidAltCode(altCode)
    ensures r.Continue? ==> ValidAltCode(r.altCode)
  {
    match ev
    case OtherEvent => Continue(altCode, [])
    case KeyEvent(key, state) =>
      if key == KeyLeftAlt && state == Down then Continue(Some(""), [])
      else if key == KeyLeftAlt && state == Up then
        if altCode == None || altCode == Some("") then Continue(None, Pulse(key))
        else
          match Decode(altCode.value)
          case Failure(e) => Crash(e)
          case Success(c) => Continue(None, InjectionSequence(HexUpper2(c)))
      else if key in NumpadKeyMap && state == Down && altCode.Some? then
        NumpadKeyMapDigits(key);
        Continue(Some(altCode.value + [NumpadKeyMap[key]]), [])
      else if key in NumpadKeyMap && state == Up && altCode.Some? then Continue(altCode, [])
      else Continue(altCode, [Write(key, state), Syn])
  }

  // ---- Properties of one event ----

  /** Events other than key events are dropped and leave the buffer alone. */
  lemma NonKeyEventDropped(altCode: Option<string>, ev: InputEvent)
    requires ValidAltCode(altCode) && !ev.KeyEvent?
    ensures Next(altCode, ev) == Continue(altCode, [])
  {
  }

  /** Pressing left ALT starts an empty alt code in every state and is not forwarded. */
  lemma AltPressStartsAltCode(altCode: Option<string>)
    requires ValidAltCode(altCode)
    ensures Next(altCode, KeyEvent(KeyLeftAlt, Down)) == Continue(Some(""), [])
  {
  }

  /** While an alt code is being typed, a keypad digit press appends its digit and emits nothing. */
  lemma KeypadPressAppendsDigit(code: string, key: Key)
    requires IsDigitString(code) && key in NumpadKeyMap
    ensures Next(Some(code), KeyEvent(key, Down)) == Continue(Some(code + [NumpadKeyMap[key]]), [])
  {
  }

  /** While an alt code is being typed, a keypad digit release is discarded. */
  lemma KeypadReleaseDiscarded(code: string, key: Key)
    requires IsDigitString(code) && key in NumpadKeyMap
    ensures Next(Some(code), KeyEvent(key, Up)) == Continue(Some(code), [])
  {
  }

  /**
   * A key event is forwarded verbatim, followed by one synchronisation and
   * with the buffer unchanged, if and only if it is not an alt-code event:
   * autorepeat of any key, right ALT, digit-row keys, and keypad digits while
   * no alt code is being typed are all forwarded.
   */
  lemma ForwardedIffNotAltCodeEvent(altCode: Option<string>, key: Key, state: KeyState)
    requires ValidAltCode(altCode)
    ensures Next(altCode, KeyEvent(key, state)) == Continue(altCode, [Write(key, state), Syn])
        <==> !IsAltCodeEvent(altCode, key, state)
  {
  }

  /** Releasing left ALT with no digits typed emits a whole ALT press and release and ends the alt code. */
  lemma EmptyReleasePulsesAlt(altCode: Option<string>)
    requires altCode == None || altCode == Some("")
    ensures Next(altCode, KeyEvent(KeyLeftAlt, Up)) ==
      Continue(None, [Write(KeyLeftAlt, Down), Syn, Write(KeyLeftAlt, Up), Syn])
  {
  }

  /**
   * Releasing left ALT after typing digits ends the alt code and emits the
   * injection sequence for the decoded code point, with no ALT pulse; if the
   * digits do not decode, the event raises and nothing is emitted.
   */
  lemma ReleaseCompletesAltCode(code: string)
    requires IsDigitString(code) && code != ""
    ensures Next(Some(code), KeyEvent(KeyLeftAlt, Up)) ==
      match Decode(code)
      case Success(c) => Continue(None, InjectionSequence(HexUpper2(c)))
      case Failure(e) => Crash(e)
  {
  }

  // ---- Properties of the injection sequence ----

  /** Every character of an upper-case hex string becomes exactly one pulse of its key, in order. */
  lemma {:induction false} HexKeyPressesShape(hex: string)
    requires IsUpperHexString(hex)
    ensures |HexKeyPresses(hex)| == 4 * |hex|
    ensures forall i :: 0 <= i < |hex| ==>
      hex[i] in HexKeyMap && HexKeyPresses(hex)[4 * i .. 4 * i + 4] == Pulse(HexKeyMap[hex[i]])
  {
    if hex != [] {
      var init := hex[..|hex| - 1];
      var c := hex[|hex| - 1];
      HexKeyPressesShape(init);
      HexKeyMapCoversHexDigits(c);
      var p := HexKeyPresses(init);
      assert HexKeyPresses(hex) == p + Pulse(HexKeyMap[c]);
      forall i | 0 <= i < |hex|
        ensures hex[i] in HexKeyMap && HexKeyPresses(hex)[4 * i .. 4 * i + 4] == Pulse(HexKeyMap[hex[i]])
      {
        HexKeyMapCoversHexDigits(hex[i]);
        if i < |init| {
          assert hex[i] == init[i];
          assert (p + Pulse(HexKeyMap[c]))[4 * i .. 4 * i + 4] == p[4 * i .. 4 * i + 4];
        } else {
          assert (p + Pulse(HexKeyMap[c]))[4 * i .. 4 * i + 4] == Pulse(HexKeyMap[c]);
        }
      }
    }
  }

  /** Every key written while typing hex digits is the key of some hex digit. */
  lemma {:induction false} HexKeyPressesUseHexKeys(hex: string)
    ensures forall o :: o in HexKeyPresses(hex) && o.Write? ==> o.key in HexKeyMap.Values
  {
    if hex != [] {
      HexKeyPressesUseHexKeys(hex[..|hex| - 1]);
    }
  }

  /**
   * Layout of the injection sequence for an upper-case hex string: 8 actions
   * for Ctrl+Shift+U, one 4-action key pulse per hex digit in order, and the
   * Enter pulse last.
   */
  lemma InjectionSequenceLayout(hex: string)
    requires IsUpperHexString(hex)
    ensures var inj := InjectionSequence(hex);
      && |inj| == 12 + 4 * |hex|
      && inj[..8] == [Write(KeyLeftCtrl, Down), Write(KeyLeftShift, Down), Write(KeyU, Down), Syn,
                      Write(KeyLeftCtrl, Up), Write(KeyLeftShift, Up), Write(KeyU, Up), Syn]
      && (forall i :: 0 <= i < |hex| ==> inj[8 + 4 * i .. 12 + 4 * i] == Pulse(HexKeyMap[hex[i]]))
      && inj[|inj| - 4..] == Pulse(KeyEnter)
  {
    var head := [Write(KeyLeftCtrl, Down), Write(KeyLeftShift, Down), Write(KeyU, Down), Syn,
                 Write(KeyLeftCtrl, Up), Write(KeyLeftShift, Up), Write(KeyU, Up), Syn];
    var p := HexKeyPresses(hex);
    var inj := InjectionSequence(hex);
    assert inj == head + p + Pulse(KeyEnter);
    HexKeyPressesShape(hex);
    forall i | 0 <= i < |hex| ensures inj[8 + 4 * i .. 12 + 4 * i] == Pulse(HexKeyMap[hex[i]]) {
      assert inj[8 + 4 * i .. 12 + 4 * i] == p[4 * i .. 4 * i + 4];
    }
  }

  /** The injection sequence never writes the ALT key: a completed alt code is not followed by an ALT pulse. */
  lemma InjectionNeverWritesAlt(hex: string)
    ensures forall o :: o in InjectionSequence(hex) && o.Write? ==> o.key != KeyLeftAlt
  {
    var p := HexKeyPresses(hex);
    HexKeyPressesUseHexKeys(hex);
    forall o | o in p && o.Write? ensures o.key != KeyLeftAlt {
      var d :| d in HexKeyMap && HexKeyMap[d] == o.key;
      HexKeyMapInjective(d, d);
    }
  }

  /** For a code point of the Basic Multilingual Plane the injection sequence has 20 to 28 actions. */
  lemma InjectionSequenceLength(c: nat)
    requires c < 0x10000
    ensures 20 <= |InjectionSequence(HexUpper2(c))| <= 28
  {
    InjectionSequenceLayout(HexUpper2(c));
  }
}
