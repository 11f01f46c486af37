/** Go's `encoding/hex`: `DecodeString` accepts upper- and lower-case digits,
    `EncodeToString` writes lower-case digits, two per byte, high nibble first.
    Decoding works on the string's UTF-8 bytes, and an error names the first
    byte that is not a hex digit. */
module Hex {
  import opened Wrappers
  import Text
  import Utf8

  type Byte = Utf8.Byte

  predicate IsHexChar(c: char) {
    ('0' <= c <= '9') || ('a' <= c <= 'f') || ('A' <= c <= 'F')
  }

  /** An upper-case hex digit, as the SID literal is written. */
  predicate IsUpperHexChar(c: char) {
    ('0' <= c <= '9') || ('A' <= c <= 'F')
  }

  function NibbleOf(c: char): (v: int)
    requires IsHexChar(c)
    ensures 0 <= v < 16
  {
    if '0' <= c <= '9' then c as int - '0' as int
    else if 'a' <= c <= 'f' then c as int - 'a' as int + 10
    else c as int - 'A' as int + 10
  }

  /** The lower-case digit for a nibble. */
  function DigitChar(d: int): (c: char)
    requires 0 <= d < 16
    ensures IsHexChar(c) && NibbleOf(c) == d
  {
    if d < 10 then ('0' as int + d) as char else ('a' as int + d - 10) as char
  }

  predicate AllHex(s: string) {
    forall i :: 0 <= i < |s| ==> IsHexChar(s[i])
  }

  /** A byte that is the ASCII code of a hex digit. */
  predicate IsHexByte(b: Byte) {
    b < 0x80 && IsHexChar(b as char)
  }

  predicate AllHexBytes(bs: seq<Byte>) {
    forall i :: 0 <= i < |bs| ==> IsHexByte(bs[i])
  }

  /** The bytes of a string are all hex digits exactly when its characters
      are: a character outside ASCII starts with a byte of at least 0xC0. */
  lemma {:induction false} HexBytesOf(s: string)
    ensures AllHexBytes(Utf8.Encode(s)) <==> AllHex(s)
    ensures AllHex(s) ==> Utf8.AllAscii(s)
  {
    if |s| > 0 {
      HexBytesOf(s[1..]);
      var bs := Utf8.Encode(s);
      var head := Utf8.CharBytes(s[0]);
      assert bs == head + Utf8.Encode(s[1..]);
      assert AllHex(s) <==> IsHexChar(s[0]) && AllHex(s[1..]) by {
        assert forall i :: 1 <= i < |s| ==> s[i] == s[1..][i - 1];
      }
      var rest := Utf8.Encode(s[1..]);
      assert AllHexBytes(bs) <==> AllHexBytes(head) && AllHexBytes(rest) by {
        assert forall i :: 0 <= i < |rest| ==> bs[|head| + i] == rest[i];
        assert forall i :: 0 <= i < |head| ==> bs[i] == head[i];
        if AllHexBytes(head) && AllHexBytes(rest) {
          forall i | 0 <= i < |bs| ensures IsHexByte(bs[i]) {
            if i >= |head| { assert bs[i] == rest[i - |head|]; }
          }
        }
      }
      if Utf8.IsAscii(s[0]) {
        assert head == [s[0] as int];
      } else {
        assert !IsHexByte(head[0]);
      }
    }
  }

  /** Index of the first byte that is not a hex digit, `|bs|` when none is. */
  function FirstNonHex(bs: seq<Byte>): (k: nat)
    ensures k <= |bs|
    ensures forall i :: 0 <= i < k ==> IsHexByte(bs[i])
    ensures k < |bs| ==> !IsHexByte(bs[k])
    ensures k == |bs| <==> AllHexBytes(bs)
  {
    if |bs| == 0 then 0
    else if !IsHexByte(bs[0]) then 0
    else
      var k := 1 + FirstNonHex(bs[1..]);
      assert forall i :: 1 <= i < |bs| ==> bs[i] == bs[1..][i - 1];
      k
  }

  /** The upper-case digit for a nibble, as `%X` writes it. */
  function UpperDigit(d: int): (c: char)
    requires 0 <= d < 16
    ensures IsUpperHexChar(c) && NibbleOf(c) == d
  {
    if d < 10 then ('0' as int + d) as char else ('A' as int + d - 10) as char
  }

  /** `strconv.IsPrint` on the code points U+0000 to U+00FF: the ASCII
      graphic characters and space, and Latin-1 from U+00A1 on except the
      soft hyphen U+00AD. */
  predicate IsPrint(b: Byte) {
    (0x20 <= b <= 0x7E) || (0xA1 <= b && b != 0xAD)
  }

  /** `%#U` of a byte read as a rune: `U+` and four upper-case hex digits,
      then the character in single quotes when it is printable. */
  function QuoteRune(b: Byte): (q: string)
    ensures |q| >= 6 && q[..4] == "U+00"
    ensures IsUpperHexChar(q[4]) && IsUpperHexChar(q[5]) && 16 * NibbleOf(q[4]) + NibbleOf(q[5]) == b
    ensures |q| > 6 <==> IsPrint(b)
    ensures IsPrint(b) ==> q[6..] == " '" + [b as char] + "'"
  {
    var code := "U+00" + [UpperDigit(b / 16), UpperDigit(b % 16)];
    code + (if IsPrint(b) then " '" + [b as char] + "'" else "")
  }

  /** `InvalidByteError.Error()`. */
  function InvalidByteError(b: Byte): string {
    "encoding/hex: invalid byte: " + QuoteRune(b)
  }

  const ErrLength := "encoding/hex: odd length hex string"

  /** `hex.Decode` on raw bytes: the first byte that is not a hex digit is
      reported, even past an odd length; otherwise an odd length is. */
  function Decode(bs: seq<Byte>): (r: Result<seq<Byte>>)
    ensures r.Ok? <==> AllHexBytes(bs) && |bs| % 2 == 0
    ensures FirstNonHex(bs) < |bs| ==> r == Err(InvalidByteError(bs[FirstNonHex(bs)]))
    ensures AllHexBytes(bs) && |bs| % 2 != 0 ==> r == Err(ErrLength)
    ensures r.Ok? ==> |r.value| == |bs| / 2
    ensures r.Ok? ==> forall i :: 0 <= i < |r.value| ==>
                        r.value[i] == 16 * NibbleOf(bs[2 * i] as char) + NibbleOf(bs[2 * i + 1] as char)
  {
    var k := FirstNonHex(bs);
    if k < |bs| then Err(InvalidByteError(bs[k]))
    else if |bs| % 2 != 0 then Err(ErrLength)
    else Ok(seq(|bs| / 2, i requires 0 <= i < |bs| / 2 =>
                16 * NibbleOf(bs[2 * i] as char) + NibbleOf(bs[2 * i + 1] as char)))
  }

  /** `hex.DecodeString`: `Decode` of the string's bytes.  It succeeds
      exactly on an even number of hex digits; `DecodeStringError` names the
      error otherwise. */
  function DecodeString(s: string): (r: Result<seq<Byte>>)
    ensures r.Ok? <==> AllHex(s) && |s| % 2 == 0
    ensures r.Ok? ==> |r.value| == |s| / 2
    ensures r.Ok? ==> forall i :: 0 <= i < |r.value| ==>
                        r.value[i] == 16 * NibbleOf(s[2 * i]) + NibbleOf(s[2 * i + 1])
    ensures AllHex(s) && |s| % 2 != 0 ==> r == Err(ErrLength)
  {
    var bs := Utf8.Encode(s);
    HexBytesOf(s);
    var r := Decode(bs);
    assert AllHex(s) ==> forall j :: 0 <= j < |s| ==> bs[j] as char == s[j];
    r
  }

  /** A string that is not all hex digits is rejected with the first of its
      UTF-8 bytes that is not one. */
  lemma DecodeStringError(s: string)
    ensures var bs := Utf8.Encode(s);
            (FirstNonHex(bs) < |bs| <==> !AllHex(s))
            && (FirstNonHex(bs) < |bs| ==> DecodeString(s) == Err(InvalidByteError(bs[FirstNonHex(bs)])))
  {
    HexBytesOf(s);
  }

  /** The messages for the two bytes a malformed GUID most often starts with:
      a printable ASCII letter, and the lead byte of a two-byte character. */
  lemma InvalidByteMessages()
    ensures InvalidByteError('z' as int) == "encoding/hex: invalid byte: U+007A 'z'"
    ensures InvalidByteError(0xC3) == "encoding/hex: invalid byte: U+00C3 '\U{C3}'"
    ensures InvalidByteError(0x80) == "encoding/hex: invalid byte: U+0080"
  {
  }

  /** `hex.EncodeToString`: two lower-case digits per byte, high nibble first. */
  function EncodeToString(bs: seq<Byte>): (s: string)
    ensures |s| == 2 * |bs|
    ensures AllHex(s)
  {
    seq(2 * |bs|, i requires 0 <= i < 2 * |bs| =>
      DigitChar(if i % 2 == 0 then bs[i / 2] / 16 else bs[i / 2] % 16))
  }

  /** Encoding never produces an upper-case letter, and upper-casing it yields
      only upper-case hex digits. */
  lemma UpperEncodingIsUpperHex(bs: seq<Byte>)
    ensures forall i :: 0 <= i < |Text.ToUpper(EncodeToString(bs))| ==>
              IsUpperHexChar(Text.ToUpper(EncodeToString(bs))[i])
  {
  }

  /** Decoding inverts encoding. */
  lemma DecodeEncode(bs: seq<Byte>)
    ensures DecodeString(EncodeToString(bs)) == Ok(bs)
  {
    var s := EncodeToString(bs);
    assert DecodeString(s).Ok?;
    var d := DecodeString(s).value;
    forall i | 0 <= i < |bs|
      ensures d[i] == bs[i]
    {
      EncodedPair(bs, i);
    }
    assert d == bs;
  }

  /** The two digits written for byte `i`. */
  lemma EncodedPair(bs: seq<Byte>, i: int)
    requires 0 <= i < |bs|
    ensures EncodeToString(bs)[2 * i] == DigitChar(bs[i] / 16)
    ensures EncodeToString(bs)[2 * i + 1] == DigitChar(bs[i] % 16)
    ensures 16 * (bs[i] / 16) + bs[i] % 16 == bs[i]
  {
    assert (2 * i) / 2 == i && (2 * i) % 2 == 0;
    assert (2 * i + 1) / 2 == i && (2 * i + 1) % 2 == 1;
  }

  /** Decoding is case-blind, so it also inverts the upper-cased encoding. */
  lemma DecodeUpperEncode(bs: seq<Byte>)
    ensures DecodeString(Text.ToUpper(EncodeToString(bs))) == Ok(bs)
  {
    var s := EncodeToString(bs);
    var u := Text.ToUpper(s);
    forall i | 0 <= i < |u|
      ensures IsHexChar(u[i]) && NibbleOf(u[i]) == NibbleOf(s[i])
    {
    }
    assert DecodeString(u).Ok?;
    var d := DecodeString(u).value;
    forall i | 0 <= i < |bs|
      ensures d[i] == bs[i]
    {
      EncodedPair(bs, i);
    }
    assert d == bs;
  }
}
