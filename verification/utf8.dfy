/** UTF-8, the byte encoding of every Rust `str` (RFC 3629), and the byte-per-character
    reading that byte-oriented decoders use when they report a byte as a `char`. */
module Utf8 {
  import opened Bytes

  /** The encoding of one Unicode scalar value: one byte below 0x80, otherwise a lead byte
      and continuation bytes, every one of them 0x80 or above (section 3 of RFC 3629). */
  function EncodeChar(c: char): (bs: seq<byte>)
    ensures 1 <= |bs| <= 4
    ensures (c as int) < 0x80 ==> bs == [c as int]
    ensures (c as int) >= 0x80 ==> forall i :: 0 <= i < |bs| ==> bs[i] >= 0x80
  {
    var n := c as int;
    if n < 0x80 then [n]
    else if n < 0x800 then [0xC0 + n / 0x40, 0x80 + n % 0x40]
    else if n < 0x1_0000 then [0xE0 + n / 0x1000, 0x80 + n / 0x40 % 0x40, 0x80 + n % 0x40]
    else [0xF0 + n / 0x4_0000, 0x80 + n / 0x1000 % 0x40, 0x80 + n / 0x40 % 0x40, 0x80 + n % 0x40]
  }

  /** The bytes of a string, character after character. */
  function Encode(s: string): (bs: seq<byte>)
    ensures |bs| >= |s|
  {
    if |s| == 0 then [] else EncodeChar(s[0]) + Encode(s[1..])
  }

  /** Each byte read as the character with the same number, as `byte as char` does. */
  function Latin1(bs: seq<byte>): (s: string)
    ensures |s| == |bs|
    ensures forall i :: 0 <= i < |bs| ==> s[i] as int == bs[i]
  {
    seq(|bs|, i requires 0 <= i < |bs| => bs[i] as char)
  }

  predicate IsAscii(s: string) {
    forall i :: 0 <= i < |s| ==> (s[i] as int) < 0x80
  }

  /** ASCII text is encoded byte for character, so reading its bytes gives it back. */
  lemma {:induction false} AsciiEncodesBytewise(s: string)
    requires IsAscii(s)
    ensures |Encode(s)| == |s|
    ensures forall i :: 0 <= i < |s| ==> Encode(s)[i] == s[i] as int
    ensures Latin1(Encode(s)) == s
    decreases |s|
  {
    if |s| > 0 {
      assert IsAscii(s[1..]) by {
        forall i | 0 <= i < |s[1..]| ensures (s[1..][i] as int) < 0x80 {
          assert s[1..][i] == s[i + 1];
        }
      }
      AsciiEncodesBytewise(s[1..]);
      assert Encode(s) == [s[0] as int] + Encode(s[1..]);
      forall i | 0 <= i < |s| ensures Encode(s)[i] == s[i] as int {
        if i > 0 {
          assert Encode(s)[i] == Encode(s[1..])[i - 1];
          assert s[1..][i - 1] == s[i];
        }
      }
    }
    assert Latin1(Encode(s)) == s;
  }

  /** Only ASCII text encodes to bytes that are all below 0x80. */
  lemma {:induction false} AsciiBytesComeFromAscii(s: string)
    requires forall i :: 0 <= i < |Encode(s)| ==> Encode(s)[i] < 0x80
    ensures IsAscii(s)
    decreases |s|
  {
    if |s| > 0 {
      var head := EncodeChar(s[0]);
      var tail := Encode(s[1..]);
      assert Encode(s) == head + tail;
      assert Encode(s)[0] == head[0];
      forall i | 0 <= i < |tail| ensures tail[i] < 0x80 {
        assert Encode(s)[|head| + i] == tail[i];
      }
      AsciiBytesComeFromAscii(s[1..]);
      forall i | 0 <= i < |s| ensures (s[i] as int) < 0x80 {
        if i > 0 {
          assert s[1..][i - 1] == s[i];
        }
      }
    }
  }
}
