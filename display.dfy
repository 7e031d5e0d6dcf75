/**
 * The display form of an identified chip (`impl Display for ArmChipInfo`):
 * the manufacturer's name, or a placeholder carrying the raw JEP106 code,
 * then " 0x" and the part number as four lower-case hex digits.
 */
module ChipDisplay {
  import opened Common
  import opened ChipInfo

  /** The JEP106 manufacturer register (`JEP106Code::get`): the name of a
      known code, nothing for an unknown one. */
  type VendorNames = Jep106Code -> Option<string>

  predicate IsHexDigit(c: char) {
    '0' <= c <= '9' || 'a' <= c <= 'f'
  }

  /** The lower-case hex digit of `d`. */
  function HexDigit(d: nat): (c: char)
    requires d < 16
    ensures IsHexDigit(c)
  {
    if d < 10 then ('0' as int + d) as char else ('a' as int + d - 10) as char
  }

  /** The value of a hex digit; padding (any other character) counts as 0. */
  function DigitValue(c: char): nat {
    if '0' <= c <= '9' then c as int - '0' as int
    else if 'a' <= c <= 'f' then c as int - 'a' as int + 10
    else 0
  }

  /** Reads a space-padded lower-case hex field back. */
  function ParseHex(s: string): nat {
    if s == [] then 0 else ParseHex(s[..|s| - 1]) * 16 + DigitValue(s[|s| - 1])
  }

  /** `{:04x}` of a 16-bit value: four digits, zero-padded. */
  function LowerHex4(n: u16): string {
    var a := n / 0x10;
    var b := a / 0x10;
    var c := b / 0x10;
    [HexDigit(c), HexDigit(b % 0x10), HexDigit(a % 0x10), HexDigit(n % 0x10)]
  }

  /** `{:2x}` of a byte: at least two characters, right-aligned with spaces,
      so a value below 0x10 is a space and one digit. */
  function PadHex2(n: u8): string {
    if n < 0x10 then [' ', HexDigit(n)] else [HexDigit(n / 0x10), HexDigit(n % 0x10)]
  }

  /** The manufacturer part of the display. */
  function Manufacturer(code: Jep106Code, names: VendorNames): string {
    match names(code)
    case Some(name) => name
    case None => "<unknown manufacturer (cc=" + PadHex2(code.cc) + ", id=" + PadHex2(code.id) + ")>"
  }

  function Display(info: ArmChipInfo, names: VendorNames): string {
    Manufacturer(info.manufacturer, names) + " 0x" + LowerHex4(info.part)
  }

  // ---------------------------------------------------------------------
  // Properties
  // ---------------------------------------------------------------------

  lemma HexDigitValue(d: nat)
    requires d < 16
    ensures DigitValue(HexDigit(d)) == d
  {
  }

  lemma ParseHexSnoc(s: string, c: char)
    ensures ParseHex(s + [c]) == ParseHex(s) * 16 + DigitValue(c)
  {
    assert (s + [c])[..|s|] == s;
  }

  /** `{:04x}` is four hex digits that read back as the value. */
  lemma LowerHex4RoundTrip(n: u16)
    ensures |LowerHex4(n)| == 4
    ensures forall i :: 0 <= i < 4 ==> IsHexDigit(LowerHex4(n)[i])
    ensures ParseHex(LowerHex4(n)) == n
  {
    var s := LowerHex4(n);
    var a := n / 0x10;
    var b := a / 0x10;
    var c := b / 0x10;
    HexDigitValue(c);
    HexDigitValue(b % 0x10);
    HexDigitValue(a % 0x10);
    HexDigitValue(n % 0x10);
    assert s == [] + [s[0]] + [s[1]] + [s[2]] + [s[3]];
    ParseHexSnoc([], s[0]);
    ParseHexSnoc([s[0]], s[1]);
    ParseHexSnoc([s[0], s[1]], s[2]);
    ParseHexSnoc([s[0], s[1], s[2]], s[3]);
    assert [] + [s[0]] == [s[0]];
    assert [s[0]] + [s[1]] == [s[0], s[1]];
    assert [s[0], s[1]] + [s[2]] == [s[0], s[1], s[2]];
    assert [s[0], s[1], s[2]] + [s[3]] == s;
  }

  /** `{:2x}` is two characters, a space first exactly when the value is
      below 0x10, and reads back as the value. */
  lemma PadHex2RoundTrip(n: u8)
    ensures |PadHex2(n)| == 2
    ensures PadHex2(n)[0] == ' ' <==> n < 0x10
    ensures IsHexDigit(PadHex2(n)[1])
    ensures ParseHex(PadHex2(n)) == n
  {
    var s := PadHex2(n);
    if n < 0x10 {
      HexDigitValue(n);
    } else {
      HexDigitValue(n / 0x10);
      HexDigitValue(n % 0x10);
    }
    ParseHexSnoc([], s[0]);
    ParseHexSnoc([s[0]], s[1]);
    assert [] + [s[0]] == [s[0]];
    assert [s[0]] + [s[1]] == s;
  }

  /** The display is the manufacturer text, " 0x" and four digits, so the
      manufacturer text and the part number can be read back from it. */
  lemma DisplayLayout(info: ArmChipInfo, names: VendorNames)
    ensures var d := Display(info, names);
      && |d| == |Manufacturer(info.manufacturer, names)| + 7
      && d[..|d| - 7] == Manufacturer(info.manufacturer, names)
      && d[|d| - 7..|d| - 4] == " 0x"
      && ParseHex(d[|d| - 4..]) == info.part
  {
    LowerHex4RoundTrip(info.part);
    var d := Display(info, names);
    assert d[|d| - 4..] == LowerHex4(info.part);
  }

  /** Chips that display alike have the same part number. */
  lemma DisplayDeterminesPart(i1: ArmChipInfo, i2: ArmChipInfo, names: VendorNames)
    requires Display(i1, names) == Display(i2, names)
    ensures i1.part == i2.part
  {
    DisplayLayout(i1, names);
    DisplayLayout(i2, names);
  }

  /** An unknown code is shown as a 37-character placeholder whose cc and id
      fields read back as the code. */
  lemma UnknownManufacturerLayout(code: Jep106Code, names: VendorNames)
    requires names(code).None?
    ensures var m := Manufacturer(code, names);
      && |m| == 37
      && m[..26] == "<unknown manufacturer (cc="
      && ParseHex(m[26..28]) == code.cc
      && m[28..33] == ", id="
      && ParseHex(m[33..35]) == code.id
      && m[35..] == ")>"
  {
    PadHex2RoundTrip(code.cc);
    PadHex2RoundTrip(code.id);
    var m := Manufacturer(code, names);
    assert m[26..28] == PadHex2(code.cc);
    assert m[33..35] == PadHex2(code.id);
  }

  /** Two unknown codes with the same placeholder are the same code. */
  lemma UnknownManufacturerInjective(c1: Jep106Code, c2: Jep106Code, names: VendorNames)
    requires names(c1).None? && names(c2).None?
    requires Manufacturer(c1, names) == Manufacturer(c2, names)
    ensures c1 == c2
  {
    UnknownManufacturerLayout(c1, names);
    UnknownManufacturerLayout(c2, names);
  }

  /** An unknown code's continuation code 4 is padded with a space, not a
      zero, while the part number keeps its leading zeros. */
  lemma DisplayExample(names: VendorNames)
    requires names(Jep106Code(0x04, 0x3B)).None?
    ensures Display(ArmChipInfo(Jep106Code(0x04, 0x3B), 0x0123), names)
         == "<unknown manufacturer (cc= 4, id=3b)> 0x0123"
  {
    assert PadHex2(0x04) == " 4";
    assert PadHex2(0x3B) == "3b";
    assert LowerHex4(0x0123) == "0123";
  }
}
