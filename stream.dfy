/**
 * The event loop over a finite stream of events (`for event in
 * dev.read_loop()`, altcodes4linux.py:57): events are handled in order until
 * the stream ends or a decode error raises out of the loop.
 */
module EventStream {
  import opened Wrappers
  import opened Numerals
  import opened Keys
  import opened AltCode
  import opened Translation

  /** After a stream: still running with a buffer and everything written, or halted by an exception after writing `emitted`. */
  datatype RunResult =
    | Running(altCode: Option<string>, emitted: seq<Out>)
    | Halted(emitted: seq<Out>, error: DecodeError)

  /** One more event after a run: nothing happens once halted. */
  function Resume(r: RunResult, ev: InputEvent): (r': RunResult)
    requires r.Running? ==> ValidAltCode(r.altCode)
    ensures r'.Running? ==> ValidAltCode(r'.altCode)
    ensures r.Halted? ==> r' == r
  {
    match r
    case Halted(_, _) => r
    case Running(a, emitted) =>
      match Next(a, ev)
      case Continue(a', more) => Running(a', emitted + more)
      case Crash(e) => Halted(emitted, e)
  }

  /** Output is only ever appended: one more event keeps everything written so far as a prefix. */
  lemma ResumeOnlyAppends(r: RunResult, ev: InputEvent)
    requires r.Running? ==> ValidAltCode(r.altCode)
    ensures |r.emitted| <= |Resume(r, ev).emitted| && Resume(r, ev).emitted[..|r.emitted|] == r.emitted
  {
  }

  /** The loop over `events`, starting from buffer `altCode`. */
  function Translate(altCode: Option<string>, events: seq<InputEvent>): (r: RunResult)
    requires ValidAltCode(altCode)
    ensures r.Running? ==> ValidAltCode(r.altCode)
    decreases |events|
  {
    if events == [] then Running(altCode, [])
    else Resume(Translate(altCode, events[..|events| - 1]), events[|events| - 1])
  }

  /** Handling one more event continues from where the stream left off. */
  lemma TranslateSnoc(altCode: Option<string>, events: seq<InputEvent>, ev: InputEvent)
    requires ValidAltCode(altCode)
    ensures Translate(altCode, events + [ev]) == Resume(Translate(altCode, events), ev)
  {
    assert (events + [ev])[..|events|] == events;
  }

  function Prepend(prefix: seq<Out>, r: RunResult): (r': RunResult)
    ensures r'.Running? == r.Running? && (r.Running? ==> r'.altCode == r.altCode)
  {
    match r
    case Running(a, emitted) => Running(a, prefix + emitted)
    case Halted(emitted, e) => Halted(prefix + emitted, e)
  }

  /** Output written earlier does not influence how the next event is handled. */
  lemma ResumeAfterPrepend(prefix: seq<Out>, r: RunResult, ev: InputEvent)
    requires r.Running? ==> ValidAltCode(r.altCode)
    ensures Resume(Prepend(prefix, r), ev) == Prepend(prefix, Resume(r, ev))
  {
    match r
    case Halted(_, _) =>
    case Running(a, emitted) =>
      match Next(a, ev)
      case Crash(_) =>
      case Continue(_, more) =>
        assert prefix + emitted + more == prefix + (emitted + more);
  }

  /**
   * Running two streams one after the other: once halted nothing more
   * happens; otherwise the second stream starts from the buffer the first
   * left and its output follows the first's.
   */
  lemma {:induction false} TranslateAppend(altCode: Option<string>, xs: seq<InputEvent>, ys: seq<InputEvent>)
    requires ValidAltCode(altCode)
    ensures Translate(altCode, xs + ys) ==
      match Translate(altCode, xs)
      case Halted(_, _) => Translate(altCode, xs)
      case Running(a, emitted) => Prepend(emitted, Translate(a, ys))
  {
    if ys == [] {
      assert xs + ys == xs;
      match Translate(altCode, xs)
      case Halted(_, _) =>
      case Running(a, emitted) =>
        assert emitted + [] == emitted;
    } else {
      var init, y := ys[..|ys| - 1], ys[|ys| - 1];
      assert (xs + ys)[..|xs + ys| - 1] == xs + init;
      assert (xs + ys)[|xs + ys| - 1] == y;
      assert Translate(altCode, xs + ys) == Resume(Translate(altCode, xs + init), y);
      TranslateAppend(altCode, xs, init);
      match Translate(altCode, xs)
      case Halted(_, _) =>
      case Running(a, emitted) =>
        ResumeAfterPrepend(emitted, Translate(a, init), y);
    }
  }

  /** Once the loop has halted, later events change nothing. */
  lemma TranslateHaltedStays(altCode: Option<string>, xs: seq<InputEvent>, ys: seq<InputEvent>)
    requires ValidAltCode(altCode) && Translate(altCode, xs).Halted?
    ensures Translate(altCode, xs + ys) == Translate(altCode, xs)
  {
    TranslateAppend(altCode, xs, ys);
  }

  /** Press and release of each key in order. */
  function Taps(keys: seq<Key>): (events: seq<InputEvent>)
    ensures |events| == 2 * |keys|
  {
    if keys == [] then []
    else Taps(keys[..|keys| - 1]) + [KeyEvent(keys[|keys| - 1], Down), KeyEvent(keys[|keys| - 1], Up)]
  }

  predicate AllKeypad(keys: seq<Key>) { forall i :: 0 <= i < |keys| ==> keys[i] in NumpadKeyMap }

  /** The digits that the keypad keys stand for. */
  function KeypadDigits(keys: seq<Key>): (digits: string)
    requires AllKeypad(keys)
    ensures |digits| == |keys| && IsDigitString(digits)
  {
    if keys == [] then []
    else
      var k := keys[|keys| - 1];
      NumpadKeyMapDigits(k);
      KeypadDigits(keys[..|keys| - 1]) + [NumpadKeyMap[k]]
  }

  /** While an alt code is being typed, tapping keypad digits appends them in order and emits nothing. */
  lemma {:induction false} KeypadTapsCollectDigits(code: string, keys: seq<Key>)
    requires IsDigitString(code) && AllKeypad(keys)
    ensures Translate(Some(code), Taps(keys)) == Running(Some(code + KeypadDigits(keys)), [])
  {
    if keys == [] {
      assert code + KeypadDigits(keys) == code;
    } else {
      var init, k := keys[..|keys| - 1], keys[|keys| - 1];
      var down, up := KeyEvent(k, Down), KeyEvent(k, Up);
      assert Taps(keys) == Taps(init) + [down, up];
      KeypadTapsCollectDigits(code, init);
      TranslateAppend(Some(code), Taps(init), [down, up]);
      var code' := code + KeypadDigits(init);
      NumpadKeyMapDigits(k);
      var code'' := code' + [NumpadKeyMap[k]];
      KeypadPressAppendsDigit(code', k);
      KeypadReleaseDiscarded(code'', k);
      assert [down, up][..1] == [down];
      assert [down][..0] == [];
      assert Translate(Some(code'), [down]) == Running(Some(code''), []);
      assert Translate(Some(code'), [down, up]) == Running(Some(code''), []);
      assert code'' == code + KeypadDigits(keys);
    }
  }

  const AltDown: InputEvent := KeyEvent(KeyLeftAlt, Down)

  const AltUp: InputEvent := KeyEvent(KeyLeftAlt, Up)

  /** ALT down then keypad digit taps, from any state: the buffer holds exactly the digits and nothing is written. */
  lemma AltDownThenDigits(altCode: Option<string>, keys: seq<Key>)
    requires ValidAltCode(altCode) && AllKeypad(keys)
    ensures Translate(altCode, [AltDown] + Taps(keys)) == Running(Some(KeypadDigits(keys)), [])
  {
    assert [AltDown][..0] == [];
    assert Translate(altCode, [AltDown]) == Running(Some(""), []);
    TranslateAppend(altCode, [AltDown], Taps(keys));
    KeypadTapsCollectDigits("", keys);
    assert "" + KeypadDigits(keys) == KeypadDigits(keys);
  }

  /**
   * A whole alt code typed from any state: ALT down, keypad digit taps, ALT
   * up. With no digits the ALT key is pulsed; otherwise the digits are
   * decoded and their code point injected, or the decode error halts the
   * loop with nothing written.
   */
  lemma AltCodeEndToEnd(altCode: Option<string>, keys: seq<Key>)
    requires ValidAltCode(altCode) && AllKeypad(keys)
    ensures Translate(altCode, [AltDown] + Taps(keys) + [AltUp]) ==
      if keys == [] then Running(None, Pulse(KeyLeftAlt))
      else
        match Decode(KeypadDigits(keys))
        case Success(c) => Running(None, InjectionSequence(HexUpper2(c)))
        case Failure(e) => Halted([], e)
  {
    var digits := KeypadDigits(keys);
    AltDownThenDigits(altCode, keys);
    TranslateSnoc(altCode, [AltDown] + Taps(keys), AltUp);
    assert Translate(altCode, [AltDown] + Taps(keys) + [AltUp]) == Resume(Running(Some(digits), []), AltUp);
    if keys != [] {
      ReleaseCompletesAltCode(digits);
      match Decode(digits)
      case Failure(_) =>
      case Success(c) =>
        assert [] + InjectionSequence(HexUpper2(c)) == InjectionSequence(HexUpper2(c));
    } else {
      assert [] + Pulse(KeyLeftAlt) == Pulse(KeyLeftAlt);
    }
  }

  /** ALT down then ALT up with no digits: the swallowed press is made up for by a full ALT pulse. */
  lemma ScenarioBareAlt()
    ensures Translate(None, [AltDown, AltUp]) ==
      Running(None, [Write(KeyLeftAlt, Down), Syn, Write(KeyLeftAlt, Up), Syn])
  {
    AltCodeEndToEnd(None, []);
    assert [AltDown] + Taps([]) + [AltUp] == [AltDown, AltUp];
  }

  /** The injection sequence that types U+0041. */
  lemma InjectionFor41()
    ensures InjectionSequence(HexUpper2(0x41)) ==
      [Write(KeyLeftCtrl, Down), Write(KeyLeftShift, Down), Write(KeyU, Down), Syn,
       Write(KeyLeftCtrl, Up), Write(KeyLeftShift, Up), Write(KeyU, Up), Syn,
       Write(Key4, Down), Syn, Write(Key4, Up), Syn,
       Write(Key1, Down), Syn, Write(Key1, Up), Syn,
       Write(KeyEnter, Down), Syn, Write(KeyEnter, Up), Syn]
  {
    assert HexDigits(0x41) == "41" by { assert HexDigits(4) == "4"; }
    assert "41"[..1] == "4";
    assert "4"[..0] == "";
    assert HexKeyPresses("41") == Pulse(Key4) + Pulse(Key1);
  }

  /** ALT+6+5 types 'A' (U+0041) through Ctrl+Shift+U, 4, 1, Enter, with no ALT written. */
  lemma ScenarioAlt65()
    ensures Translate(None, [AltDown, KeyEvent(KeyKp6, Down), KeyEvent(KeyKp6, Up),
                             KeyEvent(KeyKp5, Down), KeyEvent(KeyKp5, Up), AltUp]) ==
      Running(None, [Write(KeyLeftCtrl, Down), Write(KeyLeftShift, Down), Write(KeyU, Down), Syn,
                     Write(KeyLeftCtrl, Up), Write(KeyLeftShift, Up), Write(KeyU, Up), Syn,
                     Write(Key4, Down), Syn, Write(Key4, Up), Syn,
                     Write(Key1, Down), Syn, Write(Key1, Up), Syn,
                     Write(KeyEnter, Down), Syn, Write(KeyEnter, Up), Syn])
  {
    var keys := [KeyKp6, KeyKp5];
    AltCodeEndToEnd(None, keys);
    assert keys[..1] == [KeyKp6];
    assert [KeyKp6][..0] == [];
    assert KeypadDigits(keys) == "65";
    assert [AltDown] + Taps(keys) + [AltUp] ==
      [AltDown, KeyEvent(KeyKp6, Down), KeyEvent(KeyKp6, Up), KeyEvent(KeyKp5, Down), KeyEvent(KeyKp5, Up), AltUp];
    DecodeSmallExamples();
    InjectionFor41();
  }

  /** ALT+9+9+9 does not fit in a byte: the loop halts with the overflow and nothing is written. */
  lemma ScenarioAlt999()
    ensures Translate(None, [AltDown, KeyEvent(KeyKp9, Down), KeyEvent(KeyKp9, Up),
                             KeyEvent(KeyKp9, Down), KeyEvent(KeyKp9, Up),
                             KeyEvent(KeyKp9, Down), KeyEvent(KeyKp9, Up), AltUp]) ==
      Halted([], ByteOverflow(999))
  {
    var keys := [KeyKp9, KeyKp9, KeyKp9];
    AltCodeEndToEnd(None, keys);
    assert keys[..2] == [KeyKp9, KeyKp9];
    assert [KeyKp9, KeyKp9][..1] == [KeyKp9];
    assert [KeyKp9][..0] == [];
    assert KeypadDigits(keys) == "999";
    assert [AltDown] + Taps(keys) + [AltUp] ==
      [AltDown, KeyEvent(KeyKp9, Down), KeyEvent(KeyKp9, Up), KeyEvent(KeyKp9, Down), KeyEvent(KeyKp9, Up),
       KeyEvent(KeyKp9, Down), KeyEvent(KeyKp9, Up), AltUp];
    DecodeSmallExamples();
  }
}
