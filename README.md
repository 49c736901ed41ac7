# AltCodes4Linux alt-code translator, modelled in Dafny

AltCodes4Linux grabs a physical keyboard and copies its key events to a virtual
input device. On the way it turns Windows-style alt codes into Linux's
Unicode input sequence. An alt code is left ALT held while decimal digits are
typed on the numeric keypad. The Linux sequence is Ctrl+Shift+U, the hex
digits of the code point, then Enter.

This project models the translator: the body of the event loop in `main` and
the two key tables it uses. The state is one variable, `currentAltCode`. It is
absent while no alt code is being typed; otherwise it holds the digits typed so
far. Each event is handled in one of four ways:

- dropped: non-key events, and a left-ALT press, which also starts an empty alt code;
- forwarded: written to the virtual device, followed by one synchronisation;
- absorbed: a keypad digit typed during an alt code (its release is discarded);
- completing: left ALT released. With no digits, an ALT press-and-release is
  emitted. With digits, they are decoded and the Ctrl+Shift+U sequence is emitted.

Decoding reads the digits as one decimal number. A leading `0` selects
Windows-1252 and anything else IBM code page 850. The digit string must be at
most 4300 digits long, leading zeros included: that is the integer-string
conversion limit of Python 3.11 and later (and of the 3.7 to 3.10 security
releases), above which `int()` raises `ValueError`. The number must fit in one
byte, and the byte must be defined in the chosen code page. The code point is
written as upper-case hex with at least two digits. A decode failure is an
exception that nothing catches: the program stops.

Files:

- `wrappers.dfy`: `Option` and `Result`.
- `keys.dfy`: keys, key states, input events, output actions, `HexKeyMap`, `NumpadKeyMap`.
- `numerals.dfy`: decimal reading of digit strings, hex rendering of code points.
- `codepages.dfy`: Windows-1252 and code page 850 as tables. They follow the
  Unicode consortium's mapping files CP1252.TXT and CP850.TXT.
- `altcode.dfy`: decoding a completed buffer.
- `translation.dfy`: `Next`, the handling of one event, as a function. Also the
  injection sequence and the per-event properties.
- `stream.dfy`: `Translate`, the loop over a finite event stream, and end-to-end properties.
- `translator.dfy`: the imperative model. `VirtualInput` is the output device
  as an append-only log. The `Translator` class owns `currentAltCode`. Its
  methods are proved to do what `Next` and `Translate` say.

Behaviour of the code worth noting:

- A left-ALT press is swallowed, not forwarded (altcodes4linux.py:63-64).
- A successful decode emits no ALT press-and-release afterwards
  (altcodes4linux.py:85-105).
- A decode failure is not recovered from. It raises out of `main`, and the
  supervising loop at altcodes4linux.py:120-127 catches only
  `FileNotFoundError` and `OSError`. It is modelled as `Crash`/`Halted`.
- The code page is chosen by the first typed digit (altcodes4linux.py:80-81).
  So `065` takes the Windows-1252 path, like `0065`, and gives `A`.
- A buffer of `0` is non-empty, so it is decoded: byte 0 gives hex `00`
  (altcodes4linux.py:69).

## Model

| member | source | states |
|---|---|---|
| Keys.HexKeyMapCoversHexDigits | altcodes4linux.py:8-25 | a character has a key in the hex table exactly when it is an upper-case hex digit |
| Keys.HexKeyMapInjective | altcodes4linux.py:8-25 | distinct hex digits use distinct keys; none of them is ALT, Ctrl, Shift, U or Enter |
| Keys.NumpadKeyMapDigits | altcodes4linux.py:26-37 | every keypad key adds a decimal digit; no keypad key is left ALT or a hex-typing key |
| Keys.NumpadKeyMapInjective | altcodes4linux.py:26-37 | distinct keypad keys add distinct digits |
| Numerals.DecValue | altcodes4linux.py:81 | `int(...)` on a digit string: the value is 0 exactly when every digit is '0' |
| Numerals.DecimalString | altcodes4linux.py:81 | partner of `int(...)`: the canonical decimal form of n reads back as n; it starts with '0' only for 0 |
| Numerals.DecValueIgnoresLeadingZero | altcodes4linux.py:81 | a leading '0' does not change the decimal value |
| Numerals.DecValueIgnoresLeadingZeros | altcodes4linux.py:81 | any number of leading zeros does not change the decimal value |
| Numerals.HexDigits | altcodes4linux.py:83 | hex digits of n parse back to n, start with '0' only for 0, and are at most 2/3/4 long below 0x100/0x1000/0x10000 |
| Numerals.HexUpper2 | altcodes4linux.py:83 | `'%0.2X'`: upper-case hex of n, at least two digits, padded no further, parsing back to n, at most four digits for a BMP code point |
| CodePages.Windows1252 | altcodes4linux.py:80-82 | Windows-1252 decoding of a byte: ASCII stays ASCII, non-ASCII bytes give non-ASCII BMP code points |
| CodePages.Cp850 | altcodes4linux.py:80-82 | code page 850 decoding: defined for every byte; ASCII stays ASCII; other bytes give non-ASCII BMP code points |
| CodePages.AsciiIdentity | altcodes4linux.py:82 | both code pages are the identity on 0x00-0x7F |
| CodePages.Windows1252Undefined | altcodes4linux.py:82 | Windows-1252 is undefined exactly at 0x81, 0x8D, 0x8F, 0x90 and 0x9D |
| CodePages.Windows1252Latin1 | altcodes4linux.py:82 | Windows-1252 agrees with Latin-1 from 0xA0 to 0xFF |
| AltCode.SelectCodePage | altcodes4linux.py:80 | Windows-1252 is selected exactly when the first digit is '0' |
| AltCode.DecodeByte | altcodes4linux.py:82 | decoding a byte never fails in code page 850; a decoded code point is in the BMP and is ASCII exactly when the byte is |
| AltCode.Decode | altcodes4linux.py:80-82 | a successful decode comes from at most 4300 digits and a value below 256, and gives a BMP code point, ASCII exactly when the value is; the too-many-digits error occurs exactly for more than 4300 digits; an overflow error means the value exceeds 255 |
| AltCode.DecodeFails | altcodes4linux.py:80-82 | decoding fails exactly when there are more than 4300 digits, or the value exceeds 255, or when the first digit is '0' and the byte is one of the five undefined in Windows-1252 |
| AltCode.DecodeWithLeadingZero | altcodes4linux.py:80-82 | "0" + t decodes, on the Windows-1252 path, the byte that t denotes, or fails with too many digits (counting the added zero), overflow or undefined byte |
| AltCode.DecodeOemRoundTrip | altcodes4linux.py:80-82 | the decimal form of every byte 1-255 decodes to that byte's code page 850 character |
| AltCode.DecodeAnsiRoundTrip | altcodes4linux.py:80-82 | "0" + the decimal form of every byte decodes to its Windows-1252 character, or fails as undefined |
| AltCode.DecodeCodePagesDisagree | altcodes4linux.py:80-82 | "130" gives U+00E9 and "0130" gives U+201A |
| AltCode.DecodeUndefinedOnlyOnAnsiPath | altcodes4linux.py:80-82 | "129" gives U+00FC while "0129" fails as an undefined Windows-1252 byte |
| AltCode.DecodeTooManyZeros | altcodes4linux.py:81 | 4301 zeros, whose value is 0, still fail: leading zeros count towards the digit limit |
| AltCode.DecodeSmallExamples | altcodes4linux.py:80-82 | "65" and "065" give U+0041, "0" gives U+0000, "999" overflows |
| Translation.Pulse | altcodes4linux.py:98-101 | a key pulse (per hex digit here, and for ALT at lines 71-74) is exactly four actions: key down, syn, key up, syn |
| Translation.HexKeyPresses | altcodes4linux.py:96-101 | typing a string writes four actions per character at most, always a whole number of pulses |
| Translation.InjectionSequence | altcodes4linux.py:87-105 | the injection sequence is twelve actions longer than the hex typing; it opens with the Ctrl+Shift+U block and ends with an Enter pulse |
| Translation.Next | altcodes4linux.py:57-116 | handling one event keeps the buffer a string of decimal digits |
| Translation.NonKeyEventDropped | altcodes4linux.py:58 | a non-key event emits nothing and leaves the buffer unchanged |
| Translation.AltPressStartsAltCode | altcodes4linux.py:63-64 | a left-ALT press sets the buffer to "" in every state and emits nothing |
| Translation.KeypadPressAppendsDigit | altcodes4linux.py:108-109 | while the buffer is present, a keypad press appends exactly that key's digit and emits nothing |
| Translation.KeypadReleaseDiscarded | altcodes4linux.py:110-111 | while the buffer is present, a keypad release emits nothing and leaves the buffer unchanged |
| Translation.ForwardedIffNotAltCodeEvent | altcodes4linux.py:114-116 | a key event is forwarded as exactly [write, syn] with the buffer unchanged if and only if it is neither a left-ALT press/release nor a keypad press/release while the buffer is present |
| Translation.EmptyReleasePulsesAlt | altcodes4linux.py:69-77 | a left-ALT release with an absent or empty buffer emits ALT down, syn, ALT up, syn and leaves the buffer absent |
| Translation.ReleaseCompletesAltCode | altcodes4linux.py:79-105 | a left-ALT release with digits either leaves the buffer absent and emits exactly the injection sequence for the decoded code point, or crashes with the decode error |
| Translation.HexKeyPressesShape | altcodes4linux.py:96-101 | for an upper-case hex string, every character has a key and becomes exactly key down, syn, key up, syn, in order: 4 actions per character |
| Translation.HexKeyPressesUseHexKeys | altcodes4linux.py:96-101 | typing hex digits writes only keys of the hex table |
| Translation.InjectionSequenceLayout | altcodes4linux.py:87-105 | the injection sequence is Ctrl, Shift, U down, syn, the three up, syn; then one pulse per hex digit; then Enter down, syn, Enter up, syn |
| Translation.InjectionNeverWritesAlt | altcodes4linux.py:87-105 | the injection sequence never writes the ALT key |
| Translation.InjectionSequenceLength | altcodes4linux.py:83-105 | for a BMP code point the injection sequence has 20 to 28 actions |
| EventStream.Resume | altcodes4linux.py:57-127 | one pass of the loop keeps the buffer a string of decimal digits; once halted by an uncaught decode error nothing changes any more |
| EventStream.ResumeOnlyAppends | altcodes4linux.py:57-116 | one pass of the loop only appends to what was written so far |
| EventStream.Translate | altcodes4linux.py:57-116 | running the loop over a stream keeps the buffer a string of decimal digits |
| EventStream.TranslateAppend | altcodes4linux.py:57-116 | two streams run back to back: a halt stops everything; otherwise the second continues from the first's buffer and its output follows the first's |
| EventStream.TranslateHaltedStays | altcodes4linux.py:57-116 | after a decode error nothing further is handled or written |
| EventStream.KeypadTapsCollectDigits | altcodes4linux.py:108-111 | while the buffer is present, tapping keypad digits appends their digits in order and emits nothing |
| EventStream.AltDownThenDigits | altcodes4linux.py:62-111 | from any state, ALT down and keypad taps leave the buffer equal to the typed digits, with nothing emitted |
| EventStream.AltCodeEndToEnd | altcodes4linux.py:57-116 | ALT down, keypad taps, ALT up, from any state: an ALT pulse for no digits; else the injection sequence for the decoded code point with the buffer absent; else a halt with nothing written |
| EventStream.ScenarioBareAlt | altcodes4linux.py:63-77 | ALT down then ALT up emits exactly ALT down, syn, ALT up, syn |
| EventStream.InjectionFor41 | altcodes4linux.py:83-105 | the injection sequence for U+0041 spelled out action by action |
| EventStream.ScenarioAlt65 | altcodes4linux.py:57-116 | ALT+KP6+KP5 emits Ctrl+Shift+U, 4, 1, Enter with syncs and nothing else; the buffer ends absent |
| EventStream.ScenarioAlt999 | altcodes4linux.py:80-82 | ALT+KP9+KP9+KP9 halts with a byte overflow of 999, having written nothing |
| AltCodeTranslator.VirtualInput.constructor | altcodes4linux.py:53 | a new virtual device has an empty log |
| AltCodeTranslator.VirtualInput.Write | altcodes4linux.py:115 | `vinput.write` appends exactly one key write to the log |
| AltCodeTranslator.VirtualInput.Syn | altcodes4linux.py:116 | `vinput.syn` appends exactly one synchronisation to the log |
| AltCodeTranslator.Translator.constructor | altcodes4linux.py:56 | the translator starts with no alt code being typed |
| AltCodeTranslator.Translator.Step | altcodes4linux.py:58-116 | handling one event changes the buffer and appends to the log exactly as `Next` says; on a decode error it writes nothing, keeps the buffer and returns the error |
| AltCodeTranslator.Translator.ReleaseAlt | altcodes4linux.py:67-105 | the left-ALT release branch does exactly what `Next` says for that event |
| AltCodeTranslator.Translator.Inject | altcodes4linux.py:87-105 | appends exactly the injection sequence for the hex string |
| AltCodeTranslator.Translator.PressCtrlShiftU | altcodes4linux.py:88-95 | appends Ctrl, Shift, U down, syn, the three up, syn |
| AltCodeTranslator.Translator.TypeHex | altcodes4linux.py:96-101 | the `for char in altCodeHex` loop appends one key pulse per character with a key, skipping others |
| AltCodeTranslator.Translator.Advance | altcodes4linux.py:57-116 | one pass of the loop in `Run` keeps the log and buffer equal to what `Translate` gives for the events so far; on a decode error they equal what `Translate` gives for the whole stream |
| AltCodeTranslator.Translator.Run | altcodes4linux.py:57-116 | the event loop over a finite stream ends in the state and with the log that `Translate` gives; it stops at the first decode error and returns it |

## Left out

- Command-line parsing, opening and grabbing the device, creating and closing the virtual device (altcodes4linux.py:40-53, 118): device I/O through evdev. The virtual device is only its log of writes.
- `dev.read_loop()` (altcodes4linux.py:57) is a blocking device read; the model takes a finite sequence of events.
- The reconnect loop (altcodes4linux.py:120-127) is process supervision with a one-second sleep and is not modelled. The model keeps only its effect on decode errors: they are not caught, so the run halts.
- Console output (altcodes4linux.py:50, 84, 126) is logging only.
- Python's codec machinery is replaced by the two code-page tables.
- Scancodes are a datatype, not evdev's numbers. `KeyOther` stands for every key the translator does not name. The kernel only sends EV_KEY values 0, 1 and 2, so no other key state is modelled.
- The code-page tables are not proved injective.
