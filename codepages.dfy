/**
 * The two legacy single-byte code pages an alt code can select, as tables
 * from byte values to Unicode code points, following the Unicode
 * consortium's mapping files CP1252.TXT (Windows-1252) and CP850.TXT
 * (IBM/DOS code page 850).
 */
module CodePages {
  import opened Wrappers

  /** A code point at or above 0x80 inside the Basic Multilingual Plane. */
  type HighCodePoint = c: int | 0x80 <= c < 0x10000 witness 0x80

  /** Windows-1252 bytes 0x80..0x9F; None where the code page leaves the byte undefined. */
  const Windows1252C1: seq<Option<HighCodePoint>> := [
    Some(0x20AC), None,         Some(0x201A), Some(0x0192), Some(0x201E), Some(0x2026), Some(0x2020), Some(0x2021),
    Some(0x02C6), Some(0x2030), Some(0x0160), Some(0x2039), Some(0x0152), None,         Some(0x017D), None,
    None,         Some(0x2018), Some(0x2019), Some(0x201C), Some(0x201D), Some(0x2022), Some(0x2013), Some(0x2014),
    Some(0x02DC), Some(0x2122), Some(0x0161), Some(0x203A), Some(0x0153), None,         Some(0x017E), Some(0x0178)
  ]

  // Code page 850 bytes 0x80..0xFF, in four rows of 32 bytes.
  const Cp850Row80: seq<HighCodePoint> := [
    0x00C7, 0x00FC, 0x00E9, 0x00E2, 0x00E4, 0x00E0, 0x00E5, 0x00E7, 0x00EA, 0x00EB, 0x00E8, 0x00EF, 0x00EE, 0x00EC, 0x00C4, 0x00C5,
    0x00C9, 0x00E6, 0x00C6, 0x00F4, 0x00F6, 0x00F2, 0x00FB, 0x00F9, 0x00FF, 0x00D6, 0x00DC, 0x00F8, 0x00A3, 0x00D8, 0x00D7, 0x0192
  ]

  const Cp850RowA0: seq<HighCodePoint> := [
    0x00E1, 0x00ED, 0x00F3, 0x00FA, 0x00F1, 0x00D1, 0x00AA, 0x00BA, 0x00BF, 0x00AE, 0x00AC, 0x00BD, 0x00BC, 0x00A1, 0x00AB, 0x00BB,
    0x2591, 0x2592, 0x2593, 0x2502, 0x2524, 0x00C1, 0x00C2, 0x00C0, 0x00A9, 0x2563, 0x2551, 0x2557, 0x255D, 0x00A2, 0x00A5, 0x2510
  ]

  const Cp850RowC0: seq<HighCodePoint> := [
    0x2514, 0x2534, 0x252C, 0x251C, 0x2500, 0x253C, 0x00E3, 0x00C3, 0x255A, 0x2554, 0x2569, 0x2566, 0x2560, 0x2550, 0x256C, 0x00A4,
    0x00F0, 0x00D0, 0x00CA, 0x00CB, 0x00C8, 0x0131, 0x00CD, 0x00CE, 0x00CF, 0x2518, 0x250C, 0x2588, 0x2584, 0x00A6, 0x00CC, 0x2580
  ]

  const Cp850RowE0: seq<HighCodePoint> := [
    0x00D3, 0x00DF, 0x00D4, 0x00D2, 0x00F5, 0x00D5, 0x00B5, 0x00FE, 0x00DE, 0x00DA, 0x00DB, 0x00D9, 0x00FD, 0x00DD, 0x00AF, 0x00B4,
    0x00AD, 0x00B1, 0x2017, 0x00BE, 0x00B6, 0x00A7, 0x00F7, 0x00B8, 0x00B0, 0x00A8, 0x00B7, 0x00B9, 0x00B3, 0x00B2, 0x25A0, 0x00A0
  ]

  /** Decodes one byte in Windows-1252: Latin-1 outside 0x80..0x9F, the C1 table inside it. */
  function Windows1252(b: nat): (r: Option<nat>)
    requires b < 256
    ensures r.Some? ==> r.value < 0x10000
    ensures r.Some? ==> (r.value < 0x80 <==> b < 0x80)
  {
    if 0x80 <= b < 0xA0 then
      match Windows1252C1[b - 0x80]
      case None => None
      case Some(c) => Some(c)
    else Some(b)
  }

  /** Decodes one byte in code page 850, which defines all 256 bytes. */
  function Cp850(b: nat): (c: nat)
    requires b < 256
    ensures c < 0x10000
    ensures c < 0x80 <==> b < 0x80
  {
    if b < 0x80 then b
    else if b < 0xA0 then Cp850Row80[b - 0x80]
    else if b < 0xC0 then Cp850RowA0[b - 0xA0]
    else if b < 0xE0 then Cp850RowC0[b - 0xC0]
    else Cp850RowE0[b - 0xE0]
  }

  /** Both code pages are ASCII-compatible. */
  lemma AsciiIdentity(b: nat)
    requires b < 0x80
    ensures Windows1252(b) == Some(b) && Cp850(b) == b
  {
  }

  /** Windows-1252 leaves exactly five bytes undefined. */
  lemma Windows1252Undefined(b: nat)
    requires b < 256
    ensures Windows1252(b).None? <==> b in {0x81, 0x8D, 0x8F, 0x90, 0x9D}
  {
  }

  /** Windows-1252 agrees with Latin-1 from 0xA0 upward. */
  lemma Windows1252Latin1(b: nat)
    requires 0xA0 <= b < 256
    ensures Windows1252(b) == Some(b)
  {
  }
}
