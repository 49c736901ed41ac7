/**
 * The event loop of `main` (altcodes4linux.py:56-116) as imperative code:
 * a virtual input device that records what is written to it, and a
 * translator object owning the alt-code buffer.
 */
module AltCodeTranslator {
  import opened Wrappers
  import opened Numerals
  import opened Keys
  import opened AltCode
  import opened Translation
  import opened EventStream

  /** The virtual input device (`evdev.UInput`), seen only through the log of what is written to it. */
  class VirtualInput {
    var log: seq<Out>

    constructor ()
      ensures log == []
    {
      log := [];
    }

    /** `vinput.write(EV_KEY, key, state)` */
    method Write(key: Key, state: KeyState)
      modifies this
      ensures log == old(log) + [Out.Write(key, state)]
    {
      log := log + [Out.Write(key, state)];
    }

    /** `vinput.syn()` */
    method Syn()
      modifies this
      ensures log == old(log) + [Out.Syn]
    {
      log := log + [Out.Syn];
    }
  }

  class Translator {
    /** `currentAltCode`: None while no alt code is being typed, else the digits typed so far. */
    var currentAltCode: Option<string>
    const vinput: VirtualInput

    ghost predicate Valid()
      reads this
    {
      ValidAltCode(currentAltCode)
    }

    constructor (vinput: VirtualInput)
      ensures Valid() && this.vinput == vinput && currentAltCode == None
    {
      this.vinput := vinput;
      currentAltCode := None;
    }

    /**
     * Handles one event. Returns the decode error that the source raises out
     * of the loop, if any; in that case nothing was written and the buffer is
     * as it was.
     */
    method Step(ev: InputEvent) returns (err: Option<DecodeError>)
      requires Valid()
      modifies this, vinput
      ensures Valid()
      ensures match Next(old(currentAltCode), ev)
        case Continue(altCode, emitted) =>
          err == None && currentAltCode == altCode && vinput.log == old(vinput.log) + emitted
        case Crash(e) =>
          err == Some(e) && currentAltCode == old(currentAltCode) && vinput.log == old(vinput.log)
    {
      err := None;
      if !ev.KeyEvent? {
        return;
      }
      var scancode, keystate := ev.key, ev.state;

      if scancode == KeyLeftAlt && keystate == Down {
        currentAltCode := Some("");

      } else if scancode == KeyLeftAlt && keystate == Up {
        err := ReleaseAlt();

      } else if scancode in NumpadKeyMap && keystate == Down && currentAltCode.Some? {
        NumpadKeyMapDigits(scancode);
        currentAltCode := Some(currentAltCode.value + [NumpadKeyMap[scancode]]);

      } else if scancode in NumpadKeyMap && keystate == Up && currentAltCode.Some? {
        // a keypad release while an alt code is being typed is discarded

      } else {
        vinput.Write(scancode, keystate);
        vinput.Syn();
      }
    }

    /** Left ALT released: pulse ALT if no digits were typed, else decode the digits and inject the code point. */
    method ReleaseAlt() returns (err: Option<DecodeError>)
      requires Valid()
      modifies this, vinput
      ensures Valid()
      ensures match Next(old(currentAltCode), KeyEvent(KeyLeftAlt, Up))
        case Continue(altCode, emitted) =>
          err == None && currentAltCode == altCode && vinput.log == old(vinput.log) + emitted
        case Crash(e) =>
          err == Some(e) && currentAltCode == old(currentAltCode) && vinput.log == old(vinput.log)
    {
      err := None;
      if currentAltCode == None || currentAltCode == Some("") {
        vinput.Write(KeyLeftAlt, Down);
        vinput.Syn();
        vinput.Write(KeyLeftAlt, Up);
        vinput.Syn();
        currentAltCode := None;
        return;
      }

      var decoded := Decode(currentAltCode.value);
      if decoded.Failure? {
        return Some(decoded.error);
      }
      var altCodeHex := HexUpper2(decoded.value);
      currentAltCode := None;
      Inject(altCodeHex);
    }

    /** Types the hex digits through Ctrl+Shift+U ... Enter (altcodes4linux.py:87-105). */
    method Inject(altCodeHex: string)
      modifies vinput
      ensures vinput.log == old(vinput.log) + InjectionSequence(altCodeHex)
    {
      ghost var start := vinput.log;
      PressCtrlShiftU();
      TypeHex(altCodeHex);
      ghost var afterHex := vinput.log;
      vinput.Write(KeyEnter, Down);
      vinput.Syn();
      vinput.Write(KeyEnter, Up);
      vinput.Syn();
      assert vinput.log == afterHex + Pulse(KeyEnter);
      assert afterHex == start + CtrlShiftU + HexKeyPresses(altCodeHex);
    }

    /** Ctrl, Shift and U down, sync, the three up, sync (altcodes4linux.py:88-95). */
    method PressCtrlShiftU()
      modifies vinput
      ensures vinput.log == old(vinput.log) + CtrlShiftU
    {
      vinput.Write(KeyLeftCtrl, Down);
      vinput.Write(KeyLeftShift, Down);
      vinput.Write(KeyU, Down);
      vinput.Syn();
      vinput.Write(KeyLeftCtrl, Up);
      vinput.Write(KeyLeftShift, Up);
      vinput.Write(KeyU, Up);
      vinput.Syn();
    }

    /** The loop `for char in altCodeHex`: one key pulse per character that has a key (altcodes4linux.py:96-101). */
    method TypeHex(altCodeHex: string)
      modifies vinput
      ensures vinput.log == old(vinput.log) + HexKeyPresses(altCodeHex)
    {
      ghost var start := vinput.log;
      for i := 0 to |altCodeHex|
        invariant vinput.log == start + HexKeyPresses(altCodeHex[..i])
      {
        var c := altCodeHex[i];
        assert altCodeHex[..i + 1][..i] == altCodeHex[..i] && altCodeHex[..i + 1][i] == c;
        assert HexKeyPresses(altCodeHex[..i + 1]) ==
          HexKeyPresses(altCodeHex[..i]) + if c in HexKeyMap then Pulse(HexKeyMap[c]) else [];
        if c in HexKeyMap {
          vinput.Write(HexKeyMap[c], Down);
          vinput.Syn();
          vinput.Write(HexKeyMap[c], Up);
          vinput.Syn();
        }
      }
      assert altCodeHex[..|altCodeHex|] == altCodeHex;
    }

    /**
     * The loop `for event in dev.read_loop()` over a finite stream: handles
     * the events in order and stops at the first decode error, which it returns.
     */
    method Run(events: seq<InputEvent>) returns (err: Option<DecodeError>)
      requires Valid()
      modifies this, vinput
      ensures Valid()
      ensures match Translate(old(currentAltCode), events)
        case Running(altCode, emitted) =>
          err == None && currentAltCode == altCode && vinput.log == old(vinput.log) + emitted
        case Halted(emitted, e) =>
          err == Some(e) && vinput.log == old(vinput.log) + emitted
    {
      ghost var altCode0, log0 := currentAltCode, vinput.log;
      assert events[..0] == [];
      assert log0 + [] == log0;
      var i := 0;
      while i < |events|
        invariant 0 <= i <= |events|
        invariant Valid()
        invariant Prepend(log0, Translate(altCode0, events[..i])) == Running(currentAltCode, vinput.log)
      {
        err := Advance(altCode0, log0, events, i);
        if err.Some? {
          return;
        }
        i := i + 1;
      }
      assert events[..i] == events;
      err := None;
    }

    /**
     * One pass of the loop in Run: handles events[i], keeping the log equal to
     * log0 followed by what Translate says of the events so far; on a decode
     * error, the whole stream's result is already known.
     */
    method Advance(ghost altCode0: Option<string>, ghost log0: seq<Out>, events: seq<InputEvent>, i: nat)
      returns (err: Option<DecodeError>)
      requires Valid() && ValidAltCode(altCode0) && i < |events|
      requires Prepend(log0, Translate(altCode0, events[..i])) == Running(currentAltCode, vinput.log)
      modifies this, vinput
      ensures Valid()
      ensures err.None? ==> Prepend(log0, Translate(altCode0, events[..i + 1])) == Running(currentAltCode, vinput.log)
      ensures err.Some? ==> Prepend(log0, Translate(altCode0, events)) == Halted(vinput.log, err.value)
    {
      assert events[..i + 1] == events[..i] + [events[i]];
      TranslateSnoc(altCode0, events[..i], events[i]);
      ResumeAfterPrepend(log0, Translate(altCode0, events[..i]), events[i]);
      err := Step(events[i]);
      if err.Some? {
        TranslateHaltedStays(altCode0, events[..i + 1], events[i + 1..]);
        assert events[..i + 1] + events[i + 1..] == events;
      }
    }
  }
}
