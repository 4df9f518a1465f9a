/** The base64 encoding of section 4 of RFC 4648 (alphabet of Table 1, `=` padding),
    which `Buffer.prototype.toString('base64')` produces, with the decoder that
    inverts it. */
module Base64 {
  import opened Wrappers

  type byte = x: int | 0 <= x < 256
  type sextet = x: int | 0 <= x < 64

  /** Table 1 of RFC 4648: the character that encodes a 6-bit value. */
  function Alphabet(v: sextet): char {
    if v < 26 then ('A' as int + v) as char
    else if v < 52 then ('a' as int + (v - 26)) as char
    else if v < 62 then ('0' as int + (v - 52)) as char
    else if v == 62 then '+'
    else '/'
  }

  predicate IsAlphabetChar(c: char) {
    ('A' <= c <= 'Z') || ('a' <= c <= 'z') || ('0' <= c <= '9') || c == '+' || c == '/'
  }

  /** The 6-bit value an alphabet character encodes. */
  function AlphabetValue(c: char): (v: sextet)
    requires IsAlphabetChar(c)
    ensures Alphabet(v) == c
  {
    if 'A' <= c <= 'Z' then c as int - 'A' as int
    else if 'a' <= c <= 'z' then c as int - 'a' as int + 26
    else if '0' <= c <= '9' then c as int - '0' as int + 52
    else if c == '+' then 62
    else 63
  }

  lemma AlphabetRoundTrip(v: sextet)
    ensures IsAlphabetChar(Alphabet(v)) && AlphabetValue(Alphabet(v)) == v
  {
  }

  /** The four characters of a complete 24-bit group. */
  function EncodeGroup(b0: byte, b1: byte, b2: byte): (s: string)
    ensures |s| == 4
  {
    [Alphabet(b0 / 4), Alphabet((b0 % 4) * 16 + b1 / 16), Alphabet((b1 % 16) * 4 + b2 / 64), Alphabet(b2 % 64)]
  }

  /** Base64 text of `bs`: one group of four characters per three bytes, the last
      group padded with `=` when one or two bytes remain (section 4 of RFC 4648). */
  function Encode(bs: seq<byte>): (s: string)
    ensures |s| == 4 * ((|bs| + 2) / 3)
    decreases |bs|
  {
    if |bs| == 0 then ""
    else if |bs| == 1 then [Alphabet(bs[0] / 4), Alphabet((bs[0] % 4) * 16), '=', '=']
    else if |bs| == 2 then [Alphabet(bs[0] / 4), Alphabet((bs[0] % 4) * 16 + bs[1] / 16), Alphabet((bs[1] % 16) * 4), '=']
    else EncodeGroup(bs[0], bs[1], bs[2]) + Encode(bs[3..])
  }

  /** Decodes a group that is not the last one: four alphabet characters. */
  function DecodeGroup(s: string): Option<seq<byte>>
    requires |s| == 4
  {
    if !(IsAlphabetChar(s[0]) && IsAlphabetChar(s[1]) && IsAlphabetChar(s[2]) && IsAlphabetChar(s[3])) then None
    else
      var v0, v1, v2, v3 := AlphabetValue(s[0]), AlphabetValue(s[1]), AlphabetValue(s[2]), AlphabetValue(s[3]);
      Some([v0 * 4 + v1 / 16, (v1 % 16) * 16 + v2 / 4, (v2 % 4) * 64 + v3])
  }

  /** Decodes the last group, which may carry one or two `=` pad characters. */
  function DecodeLastGroup(s: string): Option<seq<byte>>
    requires |s| == 4
  {
    if s[2] == '=' && s[3] == '=' then
      if IsAlphabetChar(s[0]) && IsAlphabetChar(s[1]) then
        Some([AlphabetValue(s[0]) * 4 + AlphabetValue(s[1]) / 16])
      else None
    else if s[3] == '=' then
      if IsAlphabetChar(s[0]) && IsAlphabetChar(s[1]) && IsAlphabetChar(s[2]) then
        var v1, v2 := AlphabetValue(s[1]), AlphabetValue(s[2]);
        Some([AlphabetValue(s[0]) * 4 + v1 / 16, (v1 % 16) * 16 + v2 / 4])
      else None
    else DecodeGroup(s)
  }

  /** The bytes a base64 text stands for, or `None` for text that is not base64. */
  function Decode(s: string): Option<seq<byte>>
    decreases |s|
  {
    if |s| == 0 then Some([])
    else if |s| < 4 then None
    else if |s| == 4 then DecodeLastGroup(s)
    else
      match DecodeGroup(s[..4])
      case None => None
      case Some(g) =>
        match Decode(s[4..])
        case None => None
        case Some(rest) => Some(g + rest)
  }

  lemma GroupArithmetic(b0: byte, b1: byte, b2: byte)
    ensures (b0 / 4) * 4 + ((b0 % 4) * 16 + b1 / 16) / 16 == b0
    ensures (((b0 % 4) * 16 + b1 / 16) % 16) * 16 + ((b1 % 16) * 4 + b2 / 64) / 4 == b1
    ensures (((b1 % 16) * 4 + b2 / 64) % 4) * 64 + b2 % 64 == b2
    ensures ((b0 % 4) * 16) / 16 == b0 % 4
    ensures ((b1 % 16) * 4) / 4 == b1 % 16 && ((b1 % 16) * 4) % 4 == 0
  {
    assert b1 / 16 < 16;
    assert b2 / 64 < 4;
  }

  lemma GroupRoundTrip(b0: byte, b1: byte, b2: byte)
    ensures DecodeGroup(EncodeGroup(b0, b1, b2)) == Some([b0, b1, b2])
  {
    var s := EncodeGroup(b0, b1, b2);
    AlphabetRoundTrip(b0 / 4);
    AlphabetRoundTrip((b0 % 4) * 16 + b1 / 16);
    AlphabetRoundTrip((b1 % 16) * 4 + b2 / 64);
    AlphabetRoundTrip(b2 % 64);
    GroupArithmetic(b0, b1, b2);
  }

  lemma OneByteRoundTrip(b0: byte)
    ensures Decode(Encode([b0])) == Some([b0])
  {
    var s := Encode([b0]);
    var v0, v1 := b0 / 4, (b0 % 4) * 16;
    assert s == [Alphabet(v0), Alphabet(v1), '=', '='];
    AlphabetRoundTrip(v0);
    AlphabetRoundTrip(v1);
    assert v1 / 16 == b0 % 4;
    assert DecodeLastGroup(s) == Some([v0 * 4 + v1 / 16]);
  }

  lemma TwoBytesRoundTrip(b0: byte, b1: byte)
    ensures Decode(Encode([b0, b1])) == Some([b0, b1])
  {
    var s := Encode([b0, b1]);
    var v0, v1, v2 := b0 / 4, (b0 % 4) * 16 + b1 / 16, (b1 % 16) * 4;
    assert s == [Alphabet(v0), Alphabet(v1), Alphabet(v2), '='];
    AlphabetRoundTrip(v0);
    AlphabetRoundTrip(v1);
    AlphabetRoundTrip(v2);
    GroupArithmetic(b0, b1, 0);
    assert DecodeLastGroup(s) == Some([v0 * 4 + v1 / 16, (v1 % 16) * 16 + v2 / 4]);
  }

  lemma ThreeBytesRoundTrip(b0: byte, b1: byte, b2: byte)
    ensures Decode(Encode([b0, b1, b2])) == Some([b0, b1, b2])
  {
    var g := EncodeGroup(b0, b1, b2);
    EncodeWhole(b0, b1, b2);
    assert g[3] != '=' by { AlphabetRoundTrip(b2 % 64); }
    assert DecodeLastGroup(g) == DecodeGroup(g);
    GroupRoundTrip(b0, b1, b2);
  }

  /** Three bytes make exactly one group. */
  lemma EncodeWhole(b0: byte, b1: byte, b2: byte)
    ensures Encode([b0, b1, b2]) == EncodeGroup(b0, b1, b2)
  {
    var bs := [b0, b1, b2];
    assert bs[3..] == [];
    assert Encode(bs) == EncodeGroup(b0, b1, b2) + [];
  }

  /** Section 4 of RFC 4648 is a faithful code: decoding the encoding gives the bytes back. */
  lemma {:induction false} DecodeEncode(bs: seq<byte>)
    ensures Decode(Encode(bs)) == Some(bs)
    decreases |bs|
  {
    if |bs| == 0 {
    } else if |bs| == 1 {
      assert bs == [bs[0]];
      OneByteRoundTrip(bs[0]);
    } else if |bs| == 2 {
      assert bs == [bs[0], bs[1]];
      TwoBytesRoundTrip(bs[0], bs[1]);
    } else if |bs| == 3 {
      assert bs == [bs[0], bs[1], bs[2]];
      ThreeBytesRoundTrip(bs[0], bs[1], bs[2]);
    } else {
      DecodeEncode(bs[3..]);
      DecodeEncodeGroups(bs);
    }
  }

  /** Decoding a full group followed by a non-empty tail decodes each in turn. */
  lemma DecodeCons(g: string, t: string, x: seq<byte>, y: seq<byte>)
    requires |g| == 4 && |t| > 0
    requires DecodeGroup(g) == Some(x) && Decode(t) == Some(y)
    ensures Decode(g + t) == Some(x + y)
  {
    var s := g + t;
    assert s[..4] == g;
    assert s[4..] == t;
  }

  lemma EncodeCons(bs: seq<byte>)
    requires |bs| > 3
    ensures Encode(bs) == EncodeGroup(bs[0], bs[1], bs[2]) + Encode(bs[3..])
    ensures |Encode(bs[3..])| > 0
  {
  }

  /** One step of the round trip: a first full group in front of a tail that round-trips. */
  lemma DecodeEncodeGroups(bs: seq<byte>)
    requires |bs| > 3
    requires Decode(Encode(bs[3..])) == Some(bs[3..])
    ensures Decode(Encode(bs)) == Some(bs)
  {
    var head: seq<byte> := [bs[0], bs[1], bs[2]];
    var g := EncodeGroup(bs[0], bs[1], bs[2]);
    var t := Encode(bs[3..]);
    assert Encode(bs) == g + t by { EncodeCons(bs); }
    assert DecodeGroup(g) == Some(head) by { GroupRoundTrip(bs[0], bs[1], bs[2]); }
    assert |t| > 0 by { EncodeCons(bs); }
    DecodeCons(g, t, head, bs[3..]);
    SplitThree(bs);
  }

  lemma SplitThree<T>(xs: seq<T>)
    requires |xs| >= 3
    ensures [xs[0], xs[1], xs[2]] + xs[3..] == xs
  {
  }

  /** Every character of an encoding is an alphabet character or the pad `=`. */
  lemma {:induction false} EncodeAlphabet(bs: seq<byte>)
    ensures forall i :: 0 <= i < |Encode(bs)| ==> IsAlphabetChar(Encode(bs)[i]) || Encode(bs)[i] == '='
    decreases |bs|
  {
    if |bs| >= 3 {
      EncodeAlphabet(bs[3..]);
      var g := EncodeGroup(bs[0], bs[1], bs[2]);
      AlphabetRoundTrip(bs[0] / 4);
      AlphabetRoundTrip((bs[0] % 4) * 16 + bs[1] / 16);
      AlphabetRoundTrip((bs[1] % 16) * 4 + bs[2] / 64);
      AlphabetRoundTrip(bs[2] % 64);
      assert Encode(bs) == g + Encode(bs[3..]);
    } else if |bs| == 2 {
      AlphabetRoundTrip(bs[0] / 4);
      AlphabetRoundTrip((bs[0] % 4) * 16 + bs[1] / 16);
      AlphabetRoundTrip((bs[1] % 16) * 4);
    } else if |bs| == 1 {
      AlphabetRoundTrip(bs[0] / 4);
      AlphabetRoundTrip((bs[0] % 4) * 16);
    }
  }
}
