/** The GUID -> SID codec of `guidToSID` (internal/mssql/user.go).

    An Azure AD object id is a GUID written as 32 hex digits, usually with
    hyphens.  SQL Server stores the same 16 bytes with the first three GUID
    fields (time_low, time_mid, time_hi_and_version of section 4.1.2 of
    RFC 4122) in little-endian order, and the SID literal in a CREATE USER
    statement is `0x` followed by those bytes as upper-case hex.
 */
module Sid {
  import opened Wrappers
  import Text
  import Hex
  import Utf8

  type Byte = Hex.Byte

  /** The position in the GUID bytes that SID byte `i` is taken from. */
  function SourceIndex(i: int): (j: int)
    requires 0 <= i < 16
    ensures 0 <= j < 16
  {
    if i < 4 then 3 - i
    else if i < 6 then 9 - i
    else if i < 8 then 13 - i
    else i
  }

  /** Reverse bytes 0-3, 4-5 and 6-7; bytes 8-15 stay where they are. */
  function SwapGuidBytes(b: seq<Byte>): (r: seq<Byte>)
    requires |b| == 16
    ensures |r| == 16
  {
    [b[3], b[2], b[1], b[0], b[5], b[4], b[7], b[6]] + b[8..]
  }

  /** The SID byte order is input bytes [3,2,1,0,5,4,7,6] and then 8..15. */
  lemma SwapPositions(b: seq<Byte>)
    requires |b| == 16
    ensures forall i :: 0 <= i < 16 ==> SwapGuidBytes(b)[i] == b[SourceIndex(i)]
    ensures SwapGuidBytes(b)[..8] == [b[3], b[2], b[1], b[0], b[5], b[4], b[7], b[6]]
    ensures SwapGuidBytes(b)[8..] == b[8..]
  {
  }

  /** The reordering is its own inverse. */
  lemma SwapInvolution(b: seq<Byte>)
    requires |b| == 16
    ensures SwapGuidBytes(SwapGuidBytes(b)) == b
  {
    SwapPositions(b);
    SwapPositions(SwapGuidBytes(b));
    assert forall i :: 0 <= i < 16 ==> SourceIndex(SourceIndex(i)) == i;
  }

  /** The GUID text with every hyphen removed. */
  function CleanGuid(guid: string): (c: string)
    ensures '-' !in c
  {
    Text.RemoveAll(guid, '-')
  }

  /** `guidToSID`: remove the hyphens, require exactly 32 bytes (Go's `len`
      counts UTF-8 bytes), decode them as hex, swap the first three fields and
      print `0x` with upper-case hex.  The verdict is the same as asking for
      32 hex characters, since hex digits are one byte each. */
  function GuidToSid(guid: string): (r: Result<string>)
    ensures r.Ok? <==> |CleanGuid(guid)| == 32 && Hex.AllHex(CleanGuid(guid))
    ensures r.Ok? ==> |r.value| == 34 && r.value[..2] == "0x"
    ensures r.Ok? ==> forall i :: 2 <= i < 34 ==> Hex.IsUpperHexChar(r.value[i])
    ensures r.Ok? ==> Hex.DecodeString(r.value[2..])
                      == Ok(SwapGuidBytes(Hex.DecodeString(CleanGuid(guid)).value))
  {
    var clean := CleanGuid(guid);
    if |Utf8.Encode(clean)| != 32 then Err("invalid GUID format: " + guid)
    else
      match Hex.DecodeString(clean)
      case Err(e) => Err("failed to decode GUID: " + e)
      case Ok(bytes) =>
        var hex := Text.ToUpper(Hex.EncodeToString(SwapGuidBytes(bytes)));
        Hex.UpperEncodingIsUpperHex(SwapGuidBytes(bytes));
        Hex.DecodeUpperEncode(SwapGuidBytes(bytes));
        assert ("0x" + hex)[2..] == hex;
        Ok("0x" + hex)
  }

  /** The two ways `guidToSID` rejects its input, with their messages: a
      byte count other than 32, and otherwise the first byte that is not a
      hex digit, quoted as `encoding/hex` does. */
  lemma GuidToSidErrors(guid: string)
    ensures |Utf8.Encode(CleanGuid(guid))| != 32 ==>
              GuidToSid(guid) == Err("invalid GUID format: " + guid)
    ensures var bs := Utf8.Encode(CleanGuid(guid));
            |bs| == 32 && Hex.FirstNonHex(bs) < |bs| ==>
              GuidToSid(guid) == Err("failed to decode GUID: " + Hex.InvalidByteError(bs[Hex.FirstNonHex(bs)]))
  {
    Hex.DecodeStringError(CleanGuid(guid));
  }

  /** A GUID that opens with a printable ASCII character that is not a hex
      digit is rejected with that character quoted. */
  lemma LeadingLetterReported(c: char, rest: string)
    requires Utf8.IsAscii(c) && !Hex.IsHexChar(c) && c != '-'
    requires |Utf8.Encode(CleanGuid([c] + rest))| == 32
    ensures GuidToSid([c] + rest) == Err("failed to decode GUID: " + Hex.InvalidByteError(c as int))
  {
    Text.RemoveAllAppend([c], rest, '-');
    Utf8.EncodeAppend([c], CleanGuid(rest));
    assert CleanGuid([c]) == [c];
    assert Utf8.Encode([c]) == [c as int];
    assert !Hex.IsHexByte(c as int);
    assert Hex.FirstNonHex(Utf8.Encode(CleanGuid([c] + rest))) == 0;
  }

  /** The all-`z` GUID fails on its first byte. */
  lemma LetterGuidMessage(p1: string, p2: string, p3: string, p4: string, p5: string)
    requires p1 == "zzzzzzzz" && p2 == "zzzz" && p3 == "zzzz" && p4 == "zzzz" && p5 == "zzzzzzzzzzzz"
    ensures GuidToSid(p1 + "-" + p2 + "-" + p3 + "-" + p4 + "-" + p5)
            == Err("failed to decode GUID: " + "encoding/hex: invalid byte: U+007A 'z'")
  {
    var guid := p1 + "-" + p2 + "-" + p3 + "-" + p4 + "-" + p5;
    CleanOfFields(p1, p2, p3, p4, p5);
    var clean := p1 + p2 + p3 + p4 + p5;
    assert Utf8.AllAscii(clean) && clean[0] == 'z' by {
      forall i | 0 <= i < |clean| ensures clean[i] == 'z' {
        if i < 8 { assert clean[i] == p1[i]; }
        else if i < 12 { assert clean[i] == p2[i - 8]; }
        else if i < 16 { assert clean[i] == p3[i - 12]; }
        else if i < 20 { assert clean[i] == p4[i - 16]; }
        else { assert clean[i] == p5[i - 20]; }
      }
    }
    var bs := Utf8.Encode(clean);
    assert bs[0] == 'z' as int && !Hex.IsHexByte(bs[0]);
    GuidToSidErrors(guid);
    Hex.InvalidByteMessages();
  }

  /** Go counts bytes, not characters: `é` and thirty hex digits are 31
      characters but 32 bytes, so the length check passes and the decoder
      rejects the lead byte 0xC3 of `é`. */
  lemma MultiByteCountsTwice(h: string)
    requires |h| == 30 && Hex.AllHex(h)
    ensures GuidToSid("\U{E9}" + h)
            == Err("failed to decode GUID: " + "encoding/hex: invalid byte: U+00C3 '\U{C3}'")
  {
    LeadByteFirst(h);
    GuidToSidErrors("\U{E9}" + h);
    Hex.InvalidByteMessages();
  }

  /** `é` and thirty hex digits: nothing to clean, 32 bytes, and the first
      of them, 0xC3, is not a hex digit. */
  lemma LeadByteFirst(h: string)
    requires |h| == 30 && Hex.AllHex(h)
    ensures CleanGuid("\U{E9}" + h) == "\U{E9}" + h
    ensures var bs := Utf8.Encode("\U{E9}" + h);
            |bs| == 32 && bs[0] == 0xC3 && Hex.FirstNonHex(bs) == 0
  {
    var e := "\U{E9}";
    assert '-' !in e + h by {
      assert forall i :: 0 <= i < |h| ==> (e + h)[i + 1] == h[i];
    }
    Text.RemoveAllAbsent(e + h, '-');
    Utf8.EncodeAppend(e, h);
    Hex.HexBytesOf(h);
    assert Utf8.Encode(e) == [0xC3, 0xA9];
  }

  /** Hyphens are ignored wherever they appear: inserting one changes
      neither the verdict nor the SID. */
  lemma HyphensAnywhere(a: string, b: string)
    ensures CleanGuid(a + "-" + b) == CleanGuid(a + b)
    ensures GuidToSid(a + "-" + b).Ok? <==> GuidToSid(a + b).Ok?
    ensures GuidToSid(a + b).Ok? ==> GuidToSid(a + "-" + b) == GuidToSid(a + b)
  {
    var r := Text.RemoveAll("-", '-');
    assert r == "";
    Text.RemoveAllAppend(a, "-", '-');
    assert Text.RemoveAll(a + "-", '-') == Text.RemoveAll(a, '-');
    Text.RemoveAllAppend(a + "-", b, '-');
    Text.RemoveAllAppend(a, b, '-');
  }

  /** Reads the GUID bytes back out of a SID literal: the reference inverse. */
  function SidToGuidBytes(sid: string): (r: Result<seq<Byte>>)
    ensures r.Ok? ==> |r.value| == 16
  {
    if |sid| != 34 || sid[..2] != "0x" then Err("not a 16-byte SID literal")
    else
      match Hex.DecodeString(sid[2..])
      case Err(e) => Err(e)
      case Ok(bytes) => Ok(SwapGuidBytes(bytes))
  }

  /** Round trip: the SID names exactly the bytes of the GUID it came from. */
  lemma SidRoundTrip(guid: string)
    ensures GuidToSid(guid).Ok? ==>
              SidToGuidBytes(GuidToSid(guid).value) == Hex.DecodeString(CleanGuid(guid))
  {
    if GuidToSid(guid).Err? { return; }
    var bytes := Hex.DecodeString(CleanGuid(guid)).value;
    SwapInvolution(bytes);
  }

  /** Two GUIDs get the same SID only if they spell the same 16 bytes. */
  lemma SidInjective(g1: string, g2: string)
    ensures GuidToSid(g1).Ok? && GuidToSid(g1) == GuidToSid(g2) ==>
              Hex.DecodeString(CleanGuid(g1)) == Hex.DecodeString(CleanGuid(g2))
  {
    SidRoundTrip(g1);
    SidRoundTrip(g2);
  }

  /** A hex run has no hyphen for the cleaning step to drop. */
  lemma NoHyphenInHex(s: string)
    requires Hex.AllHex(s)
    ensures '-' !in s
  {
  }

  lemma DropHyphen(a: string, p: string)
    requires '-' !in p
    ensures Text.RemoveAll(a + "-" + p, '-') == Text.RemoveAll(a, '-') + p
  {
    var q := "-" + p;
    Text.RemoveAllAppend(a, q, '-');
    assert a + "-" + p == a + q;
    assert q[0] == '-' && q[1..] == p;
    Text.RemoveAllAbsent(p, '-');
  }

  /** The usual `xxxxxxxx-xxxx-xxxx-xxxx-xxxxxxxxxxxx` spelling cleans to its
      five fields run together. */
  lemma CleanOfFields(p1: string, p2: string, p3: string, p4: string, p5: string)
    requires '-' !in p1 && '-' !in p2 && '-' !in p3 && '-' !in p4 && '-' !in p5
    ensures CleanGuid(p1 + "-" + p2 + "-" + p3 + "-" + p4 + "-" + p5) == p1 + p2 + p3 + p4 + p5
  {
    Text.RemoveAllAbsent(p1, '-');
    DropHyphen(p1, p2);
    DropHyphen(p1 + "-" + p2, p3);
    DropHyphen(p1 + "-" + p2 + "-" + p3, p4);
    DropHyphen(p1 + "-" + p2 + "-" + p3 + "-" + p4, p5);
  }

  /** Every GUID in the 8-4-4-4-12 layout is accepted. */
  lemma CanonicalAccepted(p1: string, p2: string, p3: string, p4: string, p5: string)
    requires Hex.AllHex(p1) && Hex.AllHex(p2) && Hex.AllHex(p3) && Hex.AllHex(p4) && Hex.AllHex(p5)
    requires |p1| == 8 && |p2| == 4 && |p3| == 4 && |p4| == 4 && |p5| == 12
    ensures GuidToSid(p1 + "-" + p2 + "-" + p3 + "-" + p4 + "-" + p5).Ok?
  {
    NoHyphenInHex(p1);
    NoHyphenInHex(p2);
    NoHyphenInHex(p3);
    NoHyphenInHex(p4);
    NoHyphenInHex(p5);
    CleanOfFields(p1, p2, p3, p4, p5);
    var c := p1 + p2 + p3 + p4 + p5;
    assert forall i :: 0 <= i < |c| ==> Hex.IsHexChar(c[i]) by {
      forall i | 0 <= i < |c|
        ensures Hex.IsHexChar(c[i])
      {
        if i < 8 { assert c[i] == p1[i]; }
        else if i < 12 { assert c[i] == p2[i - 8]; }
        else if i < 16 { assert c[i] == p3[i - 12]; }
        else if i < 20 { assert c[i] == p4[i - 16]; }
        else { assert c[i] == p5[i - 20]; }
      }
    }
  }

  /* Proof scaffolding of `DocumentedExample`, and nothing else: the worked
     example computed one stage at a time (clean, join, bytes, swap, encode,
     prefix).  Every `Example…` lemma below evaluates one stage on literals of
     its own, small enough for the solver, and `ExampleChain` joins the
     stages without looking at any literal.  None of them states anything
     about the provider beyond that one example. */

  lemma ExampleFields()
    ensures Hex.EncodeToString([0xcb, 0xb9, 0xc7, 0xdb]) == "cbb9c7db"
    ensures Hex.EncodeToString([0x27, 0x77]) == "2777"
    ensures Hex.EncodeToString([0x47, 0xb7]) == "47b7"
    ensures Hex.EncodeToString([0x89, 0x54]) == "8954"
    ensures Hex.EncodeToString([0x02, 0x69, 0xae, 0x3d, 0xc5, 0x53]) == "0269ae3dc553"
  {
    ExampleField1();
    ExampleField5();
  }

  lemma ExampleField1()
    ensures Hex.EncodeToString([0xcb, 0xb9, 0xc7, 0xdb]) == "cbb9c7db"
  {
  }

  lemma ExampleField5()
    ensures Hex.EncodeToString([0x02, 0x69, 0xae, 0x3d, 0xc5, 0x53]) == "0269ae3dc553"
  {
  }

  /** Encoding is byte by byte, so it distributes over concatenation. */
  lemma EncodeAppend(a: seq<Byte>, b: seq<Byte>)
    ensures Hex.EncodeToString(a + b) == Hex.EncodeToString(a) + Hex.EncodeToString(b)
  {
    var l := Hex.EncodeToString(a + b);
    var r := Hex.EncodeToString(a) + Hex.EncodeToString(b);
    forall i | 0 <= i < |l| ensures l[i] == r[i] {
      if i >= 2 * |a| {
        var j := i - 2 * |a|;
        assert j / 2 == i / 2 - |a| && j % 2 == i % 2;
        assert (a + b)[i / 2] == b[j / 2];
      } else {
        assert (a + b)[i / 2] == a[i / 2];
      }
    }
  }

  lemma ToUpperAppend(a: string, b: string)
    ensures Text.ToUpper(a + b) == Text.ToUpper(a) + Text.ToUpper(b)
  {
  }

  lemma ExampleClean(p1: string, p2: string, p3: string, p4: string, p5: string)
    requires p1 == "cbb9c7db" && p2 == "2777" && p3 == "47b7" && p4 == "8954" && p5 == "0269ae3dc553"
    ensures CleanGuid(p1 + "-" + p2 + "-" + p3 + "-" + p4 + "-" + p5) == p1 + p2 + p3 + p4 + p5
  {
    ExampleFields();
    NoHyphenInHex(p1);
    NoHyphenInHex(p2);
    NoHyphenInHex(p3);
    NoHyphenInHex(p4);
    NoHyphenInHex(p5);
    CleanOfFields(p1, p2, p3, p4, p5);
  }

  lemma ExampleJoin(p1: string, p2: string, p3: string, p4: string, p5: string)
    requires p1 == "cbb9c7db" && p2 == "2777" && p3 == "47b7" && p4 == "8954" && p5 == "0269ae3dc553"
    ensures p1 + p2 + p3 + p4 + p5 == "cbb9c7db277747b789540269ae3dc553"
  {
  }

  lemma ExampleGuidBytes()
    ensures Hex.EncodeToString([0xcb, 0xb9, 0xc7, 0xdb, 0x27, 0x77, 0x47, 0xb7, 0x89, 0x54, 0x02, 0x69, 0xae, 0x3d, 0xc5, 0x53])
            == "cbb9c7db277747b789540269ae3dc553"
  {
    var lo: seq<Byte> := [0xcb, 0xb9, 0xc7, 0xdb, 0x27, 0x77, 0x47, 0xb7];
    var hi: seq<Byte> := [0x89, 0x54, 0x02, 0x69, 0xae, 0x3d, 0xc5, 0x53];
    ExampleLowBytes(lo);
    ExampleHighBytes(hi);
    ExampleBytesJoin(lo, hi, "cbb9c7db277747b7", "89540269ae3dc553");
    EncodeHalves(lo, hi, [0xcb, 0xb9, 0xc7, 0xdb, 0x27, 0x77, 0x47, 0xb7, 0x89, 0x54, 0x02, 0x69, 0xae, 0x3d, 0xc5, 0x53],
                 "cbb9c7db277747b7", "89540269ae3dc553", "cbb9c7db277747b789540269ae3dc553");
  }

  lemma ExampleBytesJoin(lo: seq<Byte>, hi: seq<Byte>, slo: string, shi: string)
    requires lo == [0xcb, 0xb9, 0xc7, 0xdb, 0x27, 0x77, 0x47, 0xb7] && hi == [0x89, 0x54, 0x02, 0x69, 0xae, 0x3d, 0xc5, 0x53]
    requires slo == "cbb9c7db277747b7" && shi == "89540269ae3dc553"
    ensures lo + hi == [0xcb, 0xb9, 0xc7, 0xdb, 0x27, 0x77, 0x47, 0xb7, 0x89, 0x54, 0x02, 0x69, 0xae, 0x3d, 0xc5, 0x53]
    ensures slo + shi == "cbb9c7db277747b789540269ae3dc553"
  {
  }

  lemma EncodeHalves(lo: seq<Byte>, hi: seq<Byte>, whole: seq<Byte>, slo: string, shi: string, s: string)
    requires lo + hi == whole && slo + shi == s
    requires Hex.EncodeToString(lo) == slo && Hex.EncodeToString(hi) == shi
    ensures Hex.EncodeToString(whole) == s
  {
    EncodeAppend(lo, hi);
  }

  lemma UpperEncodeHalves(lo: seq<Byte>, hi: seq<Byte>, whole: seq<Byte>, slo: string, shi: string, s: string)
    requires lo + hi == whole && slo + shi == s
    requires Text.ToUpper(Hex.EncodeToString(lo)) == slo && Text.ToUpper(Hex.EncodeToString(hi)) == shi
    ensures Text.ToUpper(Hex.EncodeToString(whole)) == s
  {
    EncodeAppend(lo, hi);
    ToUpperAppend(Hex.EncodeToString(lo), Hex.EncodeToString(hi));
  }

  lemma ExampleLowBytes(lo: seq<Byte>)
    requires lo == [0xcb, 0xb9, 0xc7, 0xdb, 0x27, 0x77, 0x47, 0xb7]
    ensures Hex.EncodeToString(lo) == "cbb9c7db277747b7"
  {
  }

  lemma ExampleHighBytes(hi: seq<Byte>)
    requires hi == [0x89, 0x54, 0x02, 0x69, 0xae, 0x3d, 0xc5, 0x53]
    ensures Hex.EncodeToString(hi) == "89540269ae3dc553"
  {
  }

  lemma ExampleSwap()
    ensures SwapGuidBytes([0xcb, 0xb9, 0xc7, 0xdb, 0x27, 0x77, 0x47, 0xb7, 0x89, 0x54, 0x02, 0x69, 0xae, 0x3d, 0xc5, 0x53])
            == [0xdb, 0xc7, 0xb9, 0xcb, 0x77, 0x27, 0xb7, 0x47, 0x89, 0x54, 0x02, 0x69, 0xae, 0x3d, 0xc5, 0x53]
  {
  }

  lemma ExampleEncode()
    ensures Text.ToUpper(Hex.EncodeToString([0xdb, 0xc7, 0xb9, 0xcb, 0x77, 0x27, 0xb7, 0x47, 0x89, 0x54, 0x02, 0x69, 0xae, 0x3d, 0xc5, 0x53]))
            == "DBC7B9CB7727B74789540269AE3DC553"
  {
    var lo: seq<Byte> := [0xdb, 0xc7, 0xb9, 0xcb, 0x77, 0x27, 0xb7, 0x47];
    var hi: seq<Byte> := [0x89, 0x54, 0x02, 0x69, 0xae, 0x3d, 0xc5, 0x53];
    ExampleSwappedLow(lo);
    ExampleSwappedHigh(hi);
    ExampleSwappedJoin(lo, hi, "DBC7B9CB7727B747", "89540269AE3DC553");
    UpperEncodeHalves(lo, hi, [0xdb, 0xc7, 0xb9, 0xcb, 0x77, 0x27, 0xb7, 0x47, 0x89, 0x54, 0x02, 0x69, 0xae, 0x3d, 0xc5, 0x53],
                      "DBC7B9CB7727B747", "89540269AE3DC553", "DBC7B9CB7727B74789540269AE3DC553");
  }

  lemma ExampleSwappedJoin(lo: seq<Byte>, hi: seq<Byte>, slo: string, shi: string)
    requires lo == [0xdb, 0xc7, 0xb9, 0xcb, 0x77, 0x27, 0xb7, 0x47] && hi == [0x89, 0x54, 0x02, 0x69, 0xae, 0x3d, 0xc5, 0x53]
    requires slo == "DBC7B9CB7727B747" && shi == "89540269AE3DC553"
    ensures lo + hi == [0xdb, 0xc7, 0xb9, 0xcb, 0x77, 0x27, 0xb7, 0x47, 0x89, 0x54, 0x02, 0x69, 0xae, 0x3d, 0xc5, 0x53]
    ensures slo + shi == "DBC7B9CB7727B74789540269AE3DC553"
  {
  }

  lemma ExampleSwappedLow(lo: seq<Byte>)
    requires lo == [0xdb, 0xc7, 0xb9, 0xcb, 0x77, 0x27, 0xb7, 0x47]
    ensures Text.ToUpper(Hex.EncodeToString(lo)) == "DBC7B9CB7727B747"
  {
  }

  lemma ExampleSwappedHigh(hi: seq<Byte>)
    requires hi == [0x89, 0x54, 0x02, 0x69, 0xae, 0x3d, 0xc5, 0x53]
    ensures Text.ToUpper(Hex.EncodeToString(hi)) == "89540269AE3DC553"
  {
  }

  lemma ExamplePrefix()
    ensures "0x" + "DBC7B9CB7727B74789540269AE3DC553" == "0xDBC7B9CB7727B74789540269AE3DC553"
  {
  }

  lemma ExampleChain(guid: string, clean: string, bytes: seq<Byte>, swapped: seq<Byte>, hex: string, sid: string)
    requires CleanGuid(guid) == clean
    requires |bytes| == 16 && Hex.EncodeToString(bytes) == clean
    requires SwapGuidBytes(bytes) == swapped
    requires Text.ToUpper(Hex.EncodeToString(swapped)) == hex
    requires sid == "0x" + hex
    ensures GuidToSid(guid) == Ok(sid)
  {
    Hex.DecodeEncode(bytes);
    Hex.HexBytesOf(clean);
  }

  /** The worked example documented with `guidToSID`:
      cbb9c7db-2777-47b7-8954-0269ae3dc553 gives 0xDBC7B9CB7727B74789540269AE3DC553. */
  lemma DocumentedExample(p1: string, p2: string, p3: string, p4: string, p5: string)
    requires p1 == "cbb9c7db" && p2 == "2777" && p3 == "47b7" && p4 == "8954" && p5 == "0269ae3dc553"
    ensures GuidToSid(p1 + "-" + p2 + "-" + p3 + "-" + p4 + "-" + p5) == Ok("0xDBC7B9CB7727B74789540269AE3DC553")
  {
    ExampleClean(p1, p2, p3, p4, p5);
    ExampleJoin(p1, p2, p3, p4, p5);
    ExampleGuidBytes();
    ExampleSwap();
    ExampleEncode();
    ExamplePrefix();
    ExampleChain(p1 + "-" + p2 + "-" + p3 + "-" + p4 + "-" + p5, "cbb9c7db277747b789540269ae3dc553",
      [0xcb, 0xb9, 0xc7, 0xdb, 0x27, 0x77, 0x47, 0xb7, 0x89, 0x54, 0x02, 0x69, 0xae, 0x3d, 0xc5, 0x53],
      [0xdb, 0xc7, 0xb9, 0xcb, 0x77, 0x27, 0xb7, 0x47, 0x89, 0x54, 0x02, 0x69, 0xae, 0x3d, 0xc5, 0x53],
      "DBC7B9CB7727B74789540269AE3DC553", "0xDBC7B9CB7727B74789540269AE3DC553");
  }
}
