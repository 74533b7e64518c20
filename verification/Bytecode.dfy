/** Hexadecimal bytecode of an execution trace (zkevm/src/circuit/builder.rs). Text is its UTF-8 bytes. */
module Bytecode {
  import opened Common
  import opened FieldCodec

  const ZERO: Byte := 48
  const PREFIX: seq<Byte> := [48, 120]  // "0x"

  /** One base-16 digit, either letter case. */
  function HexValue(c: Byte): (v: Option<nat>)
    ensures v.Some? ==> v.value < 16
  {
    if 48 <= c <= 57 then Some(c - 48)
    else if 65 <= c <= 70 then Some(c - 55)
    else if 97 <= c <= 102 then Some(c - 87)
    else None
  }

  predicate AllHex(text: seq<Byte>) {
    forall i :: 0 <= i < |text| ==> HexValue(text[i]).Some?
  }

  function StripPrefix(text: seq<Byte>): seq<Byte> {
    if PREFIX <= text then text[2..] else text
  }

  /** The text handed to `hex::decode`: one prefix dropped, an odd length repaired by a zero digit. */
  function Repaired(text: seq<Byte>): (r: seq<Byte>)
    ensures |r| % 2 == 0
  {
    var stripped := StripPrefix(text);
    if |stripped| % 2 == 0 then stripped else [ZERO] + stripped
  }

  function Digit(text: seq<Byte>, i: nat): Outcome<nat>
    requires i < |text|
  {
    match HexValue(text[i])
    case Some(v) => Ok(v)
    case None => Err(InvalidHexCharacter(text[i], i))
  }

  /** `hex::decode` from position `i` on. */
  function HexDecode(text: seq<Byte>, i: nat): Outcome<seq<Byte>>
    requires |text| % 2 == 0 && i % 2 == 0 && i <= |text|
    decreases |text| - i
  {
    if i == |text| then Ok([])
    else
      var hi :- Digit(text, i);
      var lo :- Digit(text, i + 1);
      var rest :- HexDecode(text, i + 2);
      Ok([16 * hi + lo] + rest)
  }

  function DecodeBytecode(text: seq<Byte>): Outcome<seq<Byte>> {
    HexDecode(Repaired(text), 0)
  }

  /** `text` spells `bytes`, two digits a byte, in any mixture of letter cases. */
  ghost predicate Spells(text: seq<Byte>, bytes: seq<Byte>) {
    && |text| == 2 * |bytes|
    && forall i :: 0 <= i < |bytes| ==>
         && HexValue(text[2 * i]) == Some(bytes[i] / 16)
         && HexValue(text[2 * i + 1]) == Some(bytes[i] % 16)
  }

  lemma SpellsCons(text: seq<Byte>, bytes: seq<Byte>)
    requires |text| >= 2 && bytes != []
    ensures Spells(text, bytes) <==>
            && HexValue(text[0]) == Some(bytes[0] / 16)
            && HexValue(text[1]) == Some(bytes[0] % 16)
            && Spells(text[2..], bytes[1..])
  {
  }

  lemma {:induction false} HexDecodeExact(text: seq<Byte>, i: nat, bytes: seq<Byte>)
    requires |text| % 2 == 0 && i % 2 == 0 && i <= |text|
    ensures HexDecode(text, i) == Ok(bytes) <==> Spells(text[i..], bytes)
    decreases |text| - i
  {
    var tail := text[i..];
    if i < |text| && bytes != [] {
      HexDecodeExact(text, i + 2, bytes[1..]);
      SpellsCons(tail, bytes);
      assert text[i + 2..] == tail[2..];
      assert bytes == [bytes[0]] + bytes[1..];
    }
  }

  /** Decoding yields `bytes` exactly when the repaired text spells them. */
  lemma DecodeIffSpelled(text: seq<Byte>, bytes: seq<Byte>)
    ensures DecodeBytecode(text) == Ok(bytes) <==> Spells(Repaired(text), bytes)
  {
    HexDecodeExact(Repaired(text), 0, bytes);
    assert Repaired(text)[0..] == Repaired(text);
  }

  /** The first character from `i` on that is no hex digit, or the end of the text. */
  function FirstBad(text: seq<Byte>, i: nat): (k: nat)
    requires i <= |text|
    ensures i <= k <= |text|
    ensures forall j :: i <= j < k ==> HexValue(text[j]).Some?
    ensures k < |text| ==> HexValue(text[k]).None?
    decreases |text| - i
  {
    if i < |text| && HexValue(text[i]).Some? then FirstBad(text, i + 1) else i
  }

  lemma {:induction false} HexDecodeFailure(text: seq<Byte>, i: nat)
    requires |text| % 2 == 0 && i % 2 == 0 && i <= |text|
    ensures var k := FirstBad(text, i);
            if k == |text| then HexDecode(text, i).Ok?
            else HexDecode(text, i) == Err(InvalidHexCharacter(text[k], k))
    decreases |text| - i
  {
    if i < |text| {
      HexDecodeFailure(text, i + 2);
    }
  }

  /** Success iff every character after the one optional prefix is a hex digit;
      a failure names the first offending character of the repaired text. */
  lemma DecodeSucceedsIffHex(text: seq<Byte>)
    ensures DecodeBytecode(text).Ok? <==> AllHex(StripPrefix(text))
    ensures !DecodeBytecode(text).Ok? ==>
              exists k :: 0 <= k < |Repaired(text)| && AllHex(Repaired(text)[..k])
                       && HexValue(Repaired(text)[k]).None?
                       && DecodeBytecode(text) == Err(InvalidHexCharacter(Repaired(text)[k], k))
  {
    var r, s := Repaired(text), StripPrefix(text);
    HexDecodeFailure(r, 0);
    var k := FirstBad(r, 0);
    if |s| % 2 == 1 {
      assert forall i :: 0 <= i < |s| ==> s[i] == r[i + 1];
      assert k < |r| ==> k > 0 && s[k - 1] == r[k];
    }
  }

  /** The number denoted by hex digits (RFC 4648, section 8); other characters count as zero. */
  function Base16(text: seq<Byte>): nat {
    if text == [] then 0
    else
      var digit := match HexValue(text[|text| - 1]) case Some(v) => v case None => 0;
      16 * Base16(text[..|text| - 1]) + digit
  }

  lemma {:induction false} SpellingKeepsValue(text: seq<Byte>, bytes: seq<Byte>)
    requires Spells(text, bytes)
    ensures Base16(text) == FromBe(bytes)
  {
    if bytes != [] {
      var n := |bytes|;
      var front, byte := text[..2 * n - 2], bytes[n - 1];
      SpellingKeepsValue(front, bytes[..n - 1]);
      assert HexValue(text[2 * (n - 1)]) == Some(byte / 16) && HexValue(text[2 * (n - 1) + 1]) == Some(byte % 16);
      assert text == (front + [text[2 * n - 2]]) + [text[2 * n - 1]];
      Base16Snoc(front, text[2 * n - 2], byte / 16);
      Base16Snoc(front + [text[2 * n - 2]], text[2 * n - 1], byte % 16);
    }
  }

  lemma Base16Snoc(text: seq<Byte>, digit: Byte, v: nat)
    requires HexValue(digit) == Some(v)
    ensures Base16(text + [digit]) == 16 * Base16(text) + v
  {
    assert (text + [digit])[..|text|] == text;
  }

  lemma {:induction false} LeadingZeroKeepsValue(text: seq<Byte>)
    ensures Base16([ZERO] + text) == Base16(text)
  {
    if text != [] {
      LeadingZeroKeepsValue(text[..|text| - 1]);
      assert ([ZERO] + text)[..|text|] == [ZERO] + text[..|text| - 1];
    } else {
      assert ([ZERO] + text)[..0] == [];
    }
  }

  /** Half as many bytes as digits, rounded up, denoting the same number. */
  lemma DecodedLengthAndValue(text: seq<Byte>)
    requires DecodeBytecode(text).Ok?
    ensures |DecodeBytecode(text).value| == (|StripPrefix(text)| + 1) / 2
    ensures FromBe(DecodeBytecode(text).value) == Base16(StripPrefix(text))
  {
    var bytes := DecodeBytecode(text).value;
    DecodeIffSpelled(text, bytes);
    SpellingKeepsValue(Repaired(text), bytes);
    LeadingZeroKeepsValue(StripPrefix(text));
  }

  /** Plain hex digits, with or without a prefix in front, decode alike. */
  lemma HexDecodesAlike(digits: seq<Byte>, bytes: seq<Byte>)
    requires AllHex(digits)
    requires Spells(if |digits| % 2 == 0 then digits else [ZERO] + digits, bytes)
    ensures DecodeBytecode(digits) == Ok(bytes) && DecodeBytecode(PREFIX + digits) == Ok(bytes)
  {
    assert |digits| >= 2 ==> digits[1] != 120;
    assert StripPrefix(digits) == digits && StripPrefix(PREFIX + digits) == digits;
    DecodeIffSpelled(digits, bytes);
    DecodeIffSpelled(PREFIX + digits, bytes);
  }

  /** Any spelling of a byte string decodes to it: with or without the prefix,
      and with or without a leading zero digit. */
  lemma SpellingDecodes(text: seq<Byte>, bytes: seq<Byte>)
    requires Spells(text, bytes)
    ensures DecodeBytecode(text) == Ok(bytes) && DecodeBytecode(PREFIX + text) == Ok(bytes)
    ensures text != [] && text[0] == ZERO ==>
              DecodeBytecode(text[1..]) == Ok(bytes) && DecodeBytecode(PREFIX + text[1..]) == Ok(bytes)
  {
    forall i | 0 <= i < |text| ensures HexValue(text[i]).Some? {
      var k := i / 2;
      assert HexValue(text[2 * k]).Some? && HexValue(text[2 * k + 1]).Some?;
    }
    HexDecodesAlike(text, bytes);
    if text != [] && text[0] == ZERO {
      assert [ZERO] + text[1..] == text;
      HexDecodesAlike(text[1..], bytes);
    }
  }

  function HexDigit(v: nat): (c: Byte)
    requires v < 16
    ensures HexValue(c) == Some(v)
  {
    if v < 10 then 48 + v else 87 + v
  }

  /** The lower-case hex form of a byte string. */
  function HexEncode(bytes: seq<Byte>): (text: seq<Byte>)
    ensures |text| == 2 * |bytes|
  {
    if bytes == [] then [] else [HexDigit(bytes[0] / 16), HexDigit(bytes[0] % 16)] + HexEncode(bytes[1..])
  }

  /** Printing then decoding is the identity, in each of the accepted forms. */
  lemma DecodeInvertsEncode(bytes: seq<Byte>)
    ensures DecodeBytecode(HexEncode(bytes)) == Ok(bytes) && DecodeBytecode(PREFIX + HexEncode(bytes)) == Ok(bytes)
    ensures bytes != [] && bytes[0] < 16 ==>
              DecodeBytecode(HexEncode(bytes)[1..]) == Ok(bytes)
              && DecodeBytecode(PREFIX + HexEncode(bytes)[1..]) == Ok(bytes)
  {
    EncodeSpells(bytes);
    SpellingDecodes(HexEncode(bytes), bytes);
  }

  lemma {:induction false} EncodeSpells(bytes: seq<Byte>)
    ensures Spells(HexEncode(bytes), bytes)
  {
    if bytes != [] {
      EncodeSpells(bytes[1..]);
      var text, rest := HexEncode(bytes), HexEncode(bytes[1..]);
      forall i | 0 <= i < |bytes|
        ensures HexValue(text[2 * i]) == Some(bytes[i] / 16) && HexValue(text[2 * i + 1]) == Some(bytes[i] % 16)
      {
        if i > 0 {
          assert text[2 * i] == rest[2 * (i - 1)] && text[2 * i + 1] == rest[2 * (i - 1) + 1];
          assert bytes[i] == bytes[1..][i - 1];
        }
      }
    }
  }
}
