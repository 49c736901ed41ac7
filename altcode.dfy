/**
 * Decoding a completed alt-code buffer into a Unicode code point
 * (altcodes4linux.py:80-82): the first digit selects the code page, the whole
 * digit string is read as one byte, and that byte is decoded in the page.
 */
module AltCode {
  import opened Wrappers
  import opened Numerals
  import opened CodePages

  datatype CodePage = Windows1252Page | Cp850Page

  /**
   * Python's default limit on the number of digits `int(...)` converts from
   * a decimal string (`sys.get_int_max_str_digits()`, Python 3.11 and later
   * and the 3.7-3.10 security releases); leading zeros count toward it.
   */
  const MaxStrDigits := 4300

  /**
   * Why decoding fails. All three are exceptions in the source that nothing
   * catches: `int(...)` raises ValueError on more than MaxStrDigits digits,
   * `int.to_bytes(1, 'big')` raises OverflowError above 255, and
   * `bytes.decode('cp1252')` raises UnicodeDecodeError on an undefined byte.
   */
  datatype DecodeError =
    | TooManyDigits(length: nat)
    | ByteOverflow(value: nat)
    | UndefinedByte(page: CodePage, byte: nat)

  /** A leading '0' selects Windows-1252 ("ALT+0ddd"); anything else selects code page 850. */
  function SelectCodePage(code: string): (page: CodePage)
    requires |code| > 0
    ensures page == Windows1252Page <==> code[0] == '0'
  {
    if code[0] == '0' then Windows1252Page else Cp850Page
  }

  function DecodeByte(page: CodePage, b: nat): (r: Option<nat>)
    requires b < 256
    ensures page == Cp850Page ==> r.Some?
    ensures r.Some? ==> r.value < 0x10000 && (r.value < 0x80 <==> b < 0x80)
  {
    match page
    case Windows1252Page => Windows1252(b)
    case Cp850Page => Some(Cp850(b))
  }

  /** The code point an alt-code buffer stands for, or the error that decoding it raises. */
  function Decode(code: string): (r: Result<nat, DecodeError>)
    requires |code| > 0 && IsDigitString(code)
    ensures r.Success? ==> |code| <= MaxStrDigits && DecValue(code) < 256 && r.value < 0x10000
    ensures r.Success? ==> (r.value < 0x80 <==> DecValue(code) < 0x80)
    ensures r.Failure? && r.error.TooManyDigits? <==> |code| > MaxStrDigits
    ensures r.Failure? && r.error.ByteOverflow? ==> |code| <= MaxStrDigits && DecValue(code) > 255
  {
    var page := SelectCodePage(code);
    if |code| > MaxStrDigits then Failure(TooManyDigits(|code|))
    else
    var altCodeDec := DecValue(code);
    if altCodeDec > 255 then Failure(ByteOverflow(altCodeDec))
    else
      match DecodeByte(page, altCodeDec)
      case None => Failure(UndefinedByte(page, altCodeDec))
      case Some(c) => Success(c)
  }

  /**
   * Decoding fails exactly when the string has too many digits for `int`,
   * when the value does not fit in a byte, or when Windows-1252 is selected
   * and leaves the byte undefined; code page 850 never fails on a byte.
   */
  lemma DecodeFails(code: string)
    requires |code| > 0 && IsDigitString(code)
    ensures Decode(code).Failure? <==>
      |code| > MaxStrDigits || DecValue(code) > 255
      || (code[0] == '0' && DecValue(code) in {0x81, 0x8D, 0x8F, 0x90, 0x9D})
  {
    if |code| <= MaxStrDigits && DecValue(code) <= 255 {
      Windows1252Undefined(DecValue(code));
    }
  }

  /**
   * Typing a '0' in front of any digit string t selects Windows-1252 and
   * decodes the byte t denotes: leading zeros never change the byte, though
   * they count toward the digit limit of `int`.
   */
  lemma {:induction false} DecodeWithLeadingZero(t: string)
    requires IsDigitString(t)
    ensures IsDigitString("0" + t)
    ensures Decode("0" + t) ==
      if |t| + 1 > MaxStrDigits then Failure(TooManyDigits(|t| + 1))
      else if DecValue(t) > 255 then Failure(ByteOverflow(DecValue(t)))
      else match Windows1252(DecValue(t))
        case None => Failure(UndefinedByte(Windows1252Page, DecValue(t)))
        case Some(c) => Success(c)
  {
    DecValueIgnoresLeadingZero(t);
  }

  /** Round trip on the OEM path: the decimal form of any nonzero byte decodes to its code page 850 character. */
  lemma DecodeOemRoundTrip(b: nat)
    requires 0 < b < 256
    ensures Decode(DecimalString(b)) == Success(Cp850(b))
  {
  }

  /** Round trip on the ANSI path: "0" followed by the decimal form of a byte decodes to its Windows-1252 character. */
  lemma DecodeAnsiRoundTrip(b: nat)
    requires b < 256
    ensures IsDigitString("0" + DecimalString(b))
    ensures Decode("0" + DecimalString(b)) ==
      match Windows1252(b)
      case None => Failure(UndefinedByte(Windows1252Page, b))
      case Some(c) => Success(c)
  {
    DecodeWithLeadingZero(DecimalString(b));
  }

  /** Byte 130: code page 850 gives U+00E9, Windows-1252 gives U+201A. */
  lemma DecodeCodePagesDisagree()
    ensures Decode("130") == Success(0x00E9)
    ensures Decode("0130") == Success(0x201A)
  {
    assert DecValue("130") == 130 by { assert "130"[..2] == "13"; assert "13"[..1] == "1"; assert "1"[..0] == ""; }
    assert Cp850(130) == 0x00E9 by { assert Cp850Row80[2] == 0x00E9; }
    assert "0130" == "0" + "130";
    DecValueIgnoresLeadingZero("130");
    assert Windows1252(130) == Some(0x201A) by { assert Windows1252C1[2] == Some(0x201A); }
  }

  /** Byte 129: defined in code page 850 (U+00FC), undefined in Windows-1252. */
  lemma DecodeUndefinedOnlyOnAnsiPath()
    ensures Decode("129") == Success(0x00FC)
    ensures Decode("0129") == Failure(UndefinedByte(Windows1252Page, 129))
  {
    assert DecValue("129") == 129 by { assert "129"[..2] == "12"; assert "12"[..1] == "1"; assert "1"[..0] == ""; }
    assert Cp850(129) == 0x00FC by { assert Cp850Row80[1] == 0x00FC; }
    assert "0129" == "0" + "129";
    DecValueIgnoresLeadingZero("129");
    assert Windows1252(129) == None by { assert Windows1252C1[1] == None; }
  }

  /**
   * "65" and "065" both give 'A' (byte 65 is ASCII, and "065" takes the
   * Windows-1252 path); "0" is byte 0; "999" does not fit in a byte.
   */
  lemma DecodeSmallExamples()
    ensures Decode("65") == Success(0x41) && Decode("065") == Success(0x41)
    ensures Decode("0") == Success(0)
    ensures Decode("999") == Failure(ByteOverflow(999))
  {
    assert DecValue("65") == 65 by { assert "65"[..1] == "6"; assert "6"[..0] == ""; }
    assert "065" == "0" + "65";
    DecValueIgnoresLeadingZero("65");
    assert DecValue("0") == 0 by { assert "0"[..0] == ""; }
    assert DecValue("999") == 999 by { assert "999"[..2] == "99"; assert "99"[..1] == "9"; assert "9"[..0] == ""; }
  }

  /** 4301 zeros denote byte 0, but `int(...)` refuses that many digits, so decoding fails. */
  lemma DecodeTooManyZeros()
    ensures IsDigitString(Zeros(MaxStrDigits + 1))
    ensures Decode(Zeros(MaxStrDigits + 1)) == Failure(TooManyDigits(MaxStrDigits + 1))
  {
  }
}
