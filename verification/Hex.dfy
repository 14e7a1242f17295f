/** Hexadecimal text: Base16 as in section 8 of RFC 4648, read in either case and written in
    lower case, with an optional 0x prefix. */
module Hex {
  import opened Basics

  type Byte = x: int | 0 <= x < 256

  predicate IsDigit(c: char) {
    '0' <= c <= '9' || 'a' <= c <= 'f' || 'A' <= c <= 'F'
  }

  function DigitValue(c: char): (v: nat)
    requires IsDigit(c)
    ensures v < 16
  {
    if c <= '9' then c as int - '0' as int
    else if c <= 'F' then c as int - 'A' as int + 10
    else c as int - 'a' as int + 10
  }

  function Digit(v: nat): (c: char)
    requires v < 16
    ensures IsDigit(c) && DigitValue(c) == v && !('A' <= c <= 'F')
  {
    if v < 10 then (v + '0' as int) as char else (v - 10 + 'a' as int) as char
  }

  function Decode(text: string): Option<seq<Byte>> {
    if text == "" then Some([])
    else if |text| == 1 || !IsDigit(text[0]) || !IsDigit(text[1]) then None
    else match Decode(text[2..])
         case None => None
         case Some(rest) => Some([DigitValue(text[0]) * 16 + DigitValue(text[1])] + rest)
  }

  function Encode(bytes: seq<Byte>): string {
    if bytes == [] then "" else [Digit(bytes[0] / 16), Digit(bytes[0] % 16)] + Encode(bytes[1..])
  }

  function LowerChar(c: char): char {
    if 'A' <= c <= 'F' then c - 'A' + 'a' else c
  }

  function Lower(text: string): string {
    if text == "" then "" else [LowerChar(text[0])] + Lower(text[1..])
  }

  function TrimPrefix(text: string): string {
    if |text| >= 2 && text[..2] == "0x" then text[2..] else text
  }

  /** A hex field of a checkpoint or signature. */
  function Field(text: string): Option<seq<Byte>> {
    Decode(TrimPrefix(text))
  }

  /** Writing bytes and reading them back gives the bytes, with or without the prefix. */
  lemma {:induction false} DecodeEncode(bytes: seq<Byte>)
    ensures Decode(Encode(bytes)) == Some(bytes)
  {
    if bytes != [] {
      var text := Encode(bytes);
      DecodeEncode(bytes[1..]);
      ByteDigits(bytes[0]);
      assert text[0] == Digit(bytes[0] / 16) && text[1] == Digit(bytes[0] % 16) && text[2..] == Encode(bytes[1..]);
      assert bytes == [bytes[0]] + bytes[1..];
    }
  }

  lemma ByteDigits(b: Byte)
    ensures DigitValue(Digit(b / 16)) * 16 + DigitValue(Digit(b % 16)) == b
  {
  }

  lemma FieldEncode(bytes: seq<Byte>)
    ensures Field("0x" + Encode(bytes)) == Some(bytes) && Field(Encode(bytes)) == Some(bytes)
  {
    DecodeEncode(bytes);
    assert ("0x" + Encode(bytes))[2..] == Encode(bytes);
    if bytes != [] {
      assert Encode(bytes)[1] == Digit(bytes[0] % 16);
    }
  }

  /** Text that can be read has two digits for every byte, and is what those bytes are
      written as but for the case of its letters. */
  lemma {:induction false} EncodeDecode(text: string)
    requires Decode(text).Some?
    ensures |text| == 2 * |Decode(text).value|
    ensures Encode(Decode(text).value) == Lower(text)
  {
    if text != "" {
      EncodeDecode(text[2..]);
      var bytes := Decode(text).value;
      assert bytes[1..] == Decode(text[2..]).value;
      OneByte(text[0], text[1]);
      assert text[1..][1..] == text[2..];
      assert Lower(text) == [LowerChar(text[0])] + ([LowerChar(text[1])] + Lower(text[2..]));
    }
  }

  lemma OneByte(c: char, d: char)
    requires IsDigit(c) && IsDigit(d)
    ensures var b := DigitValue(c) * 16 + DigitValue(d);
            Digit(b / 16) == LowerChar(c) && Digit(b % 16) == LowerChar(d)
  {
  }
}
