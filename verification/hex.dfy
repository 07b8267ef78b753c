/** Hexadecimal text: the lower-case rendering used for script error reports and the
    decoder that turns a configured `scriptPubKeyHex` into bytes (the `hex` crate's `decode`). */
module Hex {
  import opened Results
  import opened Bytes
  import opened Text
  import Utf8

  datatype HexError = OddLength | InvalidHexCharacter(c: char, index: nat)

  predicate IsHexDigit(c: char) {
    '0' <= c <= '9' || 'a' <= c <= 'f' || 'A' <= c <= 'F'
  }

  predicate IsLowerHexDigit(c: char) {
    '0' <= c <= '9' || 'a' <= c <= 'f'
  }

  function DigitValue(c: char): (v: nat)
    requires IsHexDigit(c)
    ensures v < 16
  {
    if '0' <= c <= '9' then c as int - '0' as int
    else if 'a' <= c <= 'f' then c as int - 'a' as int + 10
    else c as int - 'A' as int + 10
  }

  function Digit(v: nat): (c: char)
    requires v < 16
    ensures IsLowerHexDigit(c) && DigitValue(c) == v
  {
    if v < 10 then ('0' as int + v) as char else ('a' as int + v - 10) as char
  }

  /** Two lower-case digits per byte, high nibble first. */
  function Encode(bs: seq<byte>): (s: string)
    ensures |s| == 2 * |bs|
    ensures forall i :: 0 <= i < |s| ==> IsLowerHexDigit(s[i])
  {
    if |bs| == 0 then [] else [Digit(bs[0] / 16), Digit(bs[0] % 16)] + Encode(bs[1..])
  }

  /** Decodes an even-length string pair by pair; `offset` is the position of `s` in the
      whole input, so that a bad character is reported at its absolute index. */
  function DecodePairs(s: string, offset: nat): (r: Result<seq<byte>, HexError>)
    requires |s| % 2 == 0
    ensures r.Ok? <==> forall i :: 0 <= i < |s| ==> IsHexDigit(s[i])
    ensures r.Ok? ==> 2 * |r.value| == |s|
    ensures r.Err? ==> && r.error.InvalidHexCharacter?
                       && offset <= r.error.index < offset + |s|
                       && s[r.error.index - offset] == r.error.c
                       && !IsHexDigit(r.error.c)
                       && forall j :: 0 <= j < r.error.index - offset ==> IsHexDigit(s[j])
    decreases |s|
  {
    if |s| == 0 then Ok([])
    else if !IsHexDigit(s[0]) then Err(InvalidHexCharacter(s[0], offset))
    else if !IsHexDigit(s[1]) then Err(InvalidHexCharacter(s[1], offset + 1))
    else
      var rest :- DecodePairs(s[2..], offset + 2);
      Ok([DigitValue(s[0]) * 16 + DigitValue(s[1])] + rest)
  }

  /** The decoder works on the UTF-8 bytes of the text. Their count is tested for parity
      before any byte is looked at; otherwise the first byte that is not a hex digit (either
      case of a-f is accepted) is reported as the character with that number, at its byte
      index. Only ASCII text can decode, so success is a property of the characters. */
  function Decode(s: string): (r: Result<seq<byte>, HexError>)
    ensures r == Err(OddLength) <==> |Utf8.Encode(s)| % 2 == 1
    ensures r.Ok? <==> |s| % 2 == 0 && forall i :: 0 <= i < |s| ==> IsHexDigit(s[i])
    ensures r.Ok? ==> 2 * |r.value| == |s|
    ensures r.Err? && r.error.InvalidHexCharacter? ==>
              var bs := Utf8.Encode(s);
              && r.error.index < |bs|
              && r.error.c as int == bs[r.error.index]
              && !IsHexDigit(r.error.c)
              && forall j :: 0 <= j < r.error.index ==> IsHexDigit(bs[j] as char)
  {
    var read := Utf8.Latin1(Utf8.Encode(s));
    HexTextIsAscii(s);
    if |read| % 2 == 1 then Err(OddLength) else DecodePairs(read, 0)
  }

  /** Hex digits are ASCII, so text made of them, or text whose bytes read as them, is its
      own byte-for-character reading. */
  lemma HexTextIsAscii(s: string)
    ensures (forall i :: 0 <= i < |s| ==> IsHexDigit(s[i])) ==> Utf8.Latin1(Utf8.Encode(s)) == s
    ensures var read := Utf8.Latin1(Utf8.Encode(s));
            (forall i :: 0 <= i < |read| ==> IsHexDigit(read[i])) ==> read == s
  {
    var bs := Utf8.Encode(s);
    var read := Utf8.Latin1(bs);
    if forall i :: 0 <= i < |s| ==> IsHexDigit(s[i]) {
      Utf8.AsciiEncodesBytewise(s);
    }
    if forall i :: 0 <= i < |read| ==> IsHexDigit(read[i]) {
      assert forall i :: 0 <= i < |bs| ==> bs[i] < 0x80 by {
        forall i | 0 <= i < |bs| ensures bs[i] < 0x80 {
          assert IsHexDigit(read[i]);
        }
      }
      Utf8.AsciiBytesComeFromAscii(s);
      Utf8.AsciiEncodesBytewise(s);
    }
  }

  /** The decoder counts bytes, not characters: "é" is two bytes, the first of which (0xC3)
      is reported as the character 'Ã'; "é0" is three bytes, so its length is odd. */
  lemma DecodeCountsBytes()
    ensures Decode("\U{E9}") == Err(InvalidHexCharacter('\U{C3}', 0))
    ensures Decode("\U{E9}0") == Err(OddLength)
  {
    assert Utf8.EncodeChar('\U{E9}') == [0xC3, 0xA9];
    assert Utf8.Encode("\U{E9}") == [0xC3, 0xA9];
    assert Utf8.Encode("\U{E9}0") == [0xC3, 0xA9, 0x30];
  }

  lemma {:induction false} DecodePairsEncode(bs: seq<byte>, offset: nat)
    ensures DecodePairs(Encode(bs), offset) == Ok(bs)
    decreases |bs|
  {
    if |bs| > 0 {
      var s := Encode(bs);
      assert s[2..] == Encode(bs[1..]);
      DecodePairsEncode(bs[1..], offset + 2);
      assert DigitValue(s[0]) * 16 + DigitValue(s[1]) == bs[0];
      assert bs == [bs[0]] + bs[1..];
    }
  }

  /** Decoding the rendering of any byte string gives back exactly those bytes. */
  lemma DecodeEncode(bs: seq<byte>)
    ensures Decode(Encode(bs)) == Ok(bs)
  {
    var s := Encode(bs);
    assert |s| == |bs| + |bs|;
    assert |s| % 2 == 0;
    HexTextIsAscii(s);
    DecodePairsEncode(bs, 0);
  }

  lemma DigitOfValue(c: char)
    requires IsHexDigit(c)
    ensures Digit(DigitValue(c)) == LowerChar(c)
  {
  }

  lemma {:induction false} EncodeDecodePairs(s: string, offset: nat)
    requires |s| % 2 == 0 && DecodePairs(s, offset).Ok?
    ensures Encode(DecodePairs(s, offset).value) == Lower(s)
    decreases |s|
  {
    if |s| > 0 {
      EncodeDecodePairs(s[2..], offset + 2);
      var hi := DigitValue(s[0]);
      var lo := DigitValue(s[1]);
      var b := hi * 16 + lo;
      assert b / 16 == hi && b % 16 == lo;
      DigitOfValue(s[0]);
      DigitOfValue(s[1]);
      var bs := DecodePairs(s, offset).value;
      assert bs == [b] + DecodePairs(s[2..], offset + 2).value;
      assert bs[1..] == DecodePairs(s[2..], offset + 2).value;
      assert Lower(s) == [LowerChar(s[0]), LowerChar(s[1])] + Lower(s[2..]);
    }
  }

  /** Whatever string decodes, its bytes render back as that string in lower case. */
  lemma EncodeDecode(s: string)
    requires Decode(s).Ok?
    ensures Encode(Decode(s).value) == Lower(s)
  {
    HexTextIsAscii(s);
    EncodeDecodePairs(s, 0);
  }
}
