/** UTF-8 (RFC 3629), the byte form of a Go string.

    Go's `len(s)` counts the bytes of this encoding and `[]byte(s)` lists
    them, so a rule the provider states on a string's length or bytes is a
    rule on `Encode(s)`, not on the characters of `s`.
 */
module Utf8 {

  type Byte = b: int | 0 <= b < 256

  predicate IsAscii(c: char) {
    c as int < 0x80
  }

  predicate AllAscii(s: string) {
    forall i :: 0 <= i < |s| ==> IsAscii(s[i])
  }

  /** A continuation byte, `10xxxxxx`. */
  predicate IsContinuation(b: Byte) {
    0x80 <= b < 0xC0
  }

  /** The one to four bytes of one character: ASCII stands for itself, any
      other character starts with a lead byte of at least 0xC0 followed by
      continuation bytes. */
  function CharBytes(c: char): (bs: seq<Byte>)
    ensures 1 <= |bs| <= 4
    ensures |bs| == 1 <==> IsAscii(c)
    ensures IsAscii(c) ==> bs[0] == c as int
    ensures !IsAscii(c) ==> bs[0] >= 0xC0 && forall i :: 1 <= i < |bs| ==> IsContinuation(bs[i])
  {
    var n := c as int;
    if n < 0x80 then [n]
    else if n < 0x800 then [0xC0 + n / 64, 0x80 + n % 64]
    else if n < 0x10000 then [0xE0 + n / 4096, 0x80 + (n / 64) % 64, 0x80 + n % 64]
    else [0xF0 + n / 262144, 0x80 + (n / 4096) % 64, 0x80 + (n / 64) % 64, 0x80 + n % 64]
  }

  /** The code point a one- to four-byte sequence carries in its payload bits. */
  function Payload(bs: seq<Byte>): int
    requires 1 <= |bs| <= 4
  {
    var b: seq<int> := bs;
    if |b| == 1 then b[0]
    else if |b| == 2 then (b[0] - 0xC0) * 64 + (b[1] - 0x80)
    else if |b| == 3 then (b[0] - 0xE0) * 4096 + (b[1] - 0x80) * 64 + (b[2] - 0x80)
    else (b[0] - 0xF0) * 262144 + (b[1] - 0x80) * 4096 + (b[2] - 0x80) * 64 + (b[3] - 0x80)
  }

  /** Decoding inverts encoding: the payload bits spell the character again. */
  lemma CharBytesDecode(c: char)
    ensures Payload(CharBytes(c)) == c as int
  {
    var n := c as int;
    if n < 0x80 {
    } else if n < 0x800 {
      assert (n / 64) * 64 + n % 64 == n;
    } else if n < 0x10000 {
      assert (n / 4096) * 4096 + ((n / 64) % 64) * 64 + n % 64 == n by {
        assert (n / 64) / 64 == n / 4096;
        assert (n / 64) == (n / 4096) * 64 + (n / 64) % 64;
      }
    } else {
      assert (n / 262144) * 262144 + ((n / 4096) % 64) * 4096 + ((n / 64) % 64) * 64 + n % 64 == n by {
        assert (n / 64) / 64 == n / 4096;
        assert (n / 4096) / 64 == n / 262144;
        assert (n / 64) == (n / 4096) * 64 + (n / 64) % 64;
        assert (n / 4096) == (n / 262144) * 64 + (n / 4096) % 64;
      }
    }
  }

  /** `[]byte(s)`: the characters' bytes, one after the other.  Only an
      all-ASCII string has as many bytes as characters. */
  function Encode(s: string): (bs: seq<Byte>)
    ensures |bs| >= |s|
    ensures |bs| == |s| <==> AllAscii(s)
    ensures AllAscii(s) ==> forall i :: 0 <= i < |s| ==> bs[i] == s[i] as int
  {
    if |s| == 0 then []
    else
      var rest := Encode(s[1..]);
      assert AllAscii(s) <==> IsAscii(s[0]) && AllAscii(s[1..]) by {
        assert forall i :: 1 <= i < |s| ==> s[i] == s[1..][i - 1];
      }
      CharBytes(s[0]) + rest
  }

  /** Encoding works character by character, so it distributes over
      concatenation. */
  lemma {:induction false} EncodeAppend(a: string, b: string)
    ensures Encode(a + b) == Encode(a) + Encode(b)
  {
    if |a| > 0 {
      assert (a + b)[1..] == a[1..] + b;
      EncodeAppend(a[1..], b);
    } else {
      assert a + b == b;
    }
  }
}
