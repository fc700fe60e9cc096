/** Base64 as section 4 of RFC 4648 defines it: the 64-character alphabet of
    its Table 1, groups of three octets written as four characters, and '='
    padding for a final group of one or two octets. This is what Node's
    `Buffer.toString("base64")` produces. */
module Base64 {

  import opened Wrappers

  const Pad: char := '='

  /** The characters of Table 1 of RFC 4648: 'A'-'Z', 'a'-'z', '0'-'9', '+'
      and '/'. */
  predicate InAlphabet(c: char)
  {
    'A' <= c <= 'Z' || 'a' <= c <= 'z' || '0' <= c <= '9' || c == '+' || c == '/'
  }

  /** The character Table 1 of RFC 4648 assigns to the 6-bit value `i`:
      values 0-25 are 'A'-'Z', 26-51 'a'-'z', 52-61 '0'-'9', 62 '+', 63 '/'. */
  function Digit(i: nat): (c: char)
    requires i < 64
    ensures InAlphabet(c)
  {
    if i < 26 then ('A' as int + i) as char
    else if i < 52 then ('a' as int + i - 26) as char
    else if i < 62 then ('0' as int + i - 52) as char
    else if i == 62 then '+'
    else '/'
  }

  /** The 6-bit value a character of the alphabet encodes, or None for any
      other character (the padding character included). */
  function DigitValue(c: char): (r: Option<nat>)
    ensures r.Some? ==> r.value < 64 && Digit(r.value) == c
    ensures r.None? <==> !InAlphabet(c)
  {
    if 'A' <= c <= 'Z' then Some(c as int - 'A' as int)
    else if 'a' <= c <= 'z' then Some(c as int - 'a' as int + 26)
    else if '0' <= c <= '9' then Some(c as int - '0' as int + 52)
    else if c == '+' then Some(62)
    else if c == '/' then Some(63)
    else None
  }

  lemma DigitValueOfDigit(i: nat)
    requires i < 64
    ensures DigitValue(Digit(i)) == Some(i)
  {
  }

  /** One complete group: three octets as four characters. */
  function EncodeTriple(b0: Byte, b1: Byte, b2: Byte): string
  {
    [Digit(b0 / 4), Digit((b0 % 4) * 16 + b1 / 16), Digit((b1 % 16) * 4 + b2 / 64), Digit(b2 % 64)]
  }

  /** Encodes an octet sequence, padding the final group. */
  function Encode(b: seq<Byte>): (r: string)
    ensures |r| == 4 * ((|b| + 2) / 3)
  {
    if |b| == 0 then ""
    else if |b| == 1 then [Digit(b[0] / 4), Digit((b[0] % 4) * 16), Pad, Pad]
    else if |b| == 2 then [Digit(b[0] / 4), Digit((b[0] % 4) * 16 + b[1] / 16), Digit((b[1] % 16) * 4), Pad]
    else EncodeTriple(b[0], b[1], b[2]) + Encode(b[3..])
  }

  /** Every character of an encoding is from the alphabet or is padding, and
      padding occupies at most the last two positions. */
  lemma {:induction false} EncodeCharacters(b: seq<Byte>)
    ensures forall k :: 0 <= k < |Encode(b)| ==> InAlphabet(Encode(b)[k]) || Encode(b)[k] == Pad
    ensures forall k :: 0 <= k < |Encode(b)| && Encode(b)[k] == Pad ==> k >= |Encode(b)| - 2
    decreases |b|
  {
    if |b| >= 3 {
      EncodeCharacters(b[3..]);
      var r := Encode(b);
      assert r == EncodeTriple(b[0], b[1], b[2]) + Encode(b[3..]);
      forall k | 0 <= k < |r|
        ensures InAlphabet(r[k]) || r[k] == Pad
        ensures r[k] == Pad ==> k >= |r| - 2
      {
        if k >= 4 {
          assert r[k] == Encode(b[3..])[k - 4];
        }
      }
    }
  }

  /** Decodes one four-character group into one, two or three octets. Padding
      may only stand at the end of a group. */
  function DecodeQuad(q: string): (r: Option<seq<Byte>>)
    requires |q| == 4
    ensures r.Some? ==> 1 <= |r.value| <= 3
  {
    match (DigitValue(q[0]), DigitValue(q[1]), DigitValue(q[2]), DigitValue(q[3]))
    case (Some(c0), Some(c1), Some(c2), Some(c3)) =>
      Some([c0 * 4 + c1 / 16, (c1 % 16) * 16 + c2 / 4, (c2 % 4) * 64 + c3])
    case (Some(c0), Some(c1), Some(c2), None) =>
      if q[3] == Pad then Some([c0 * 4 + c1 / 16, (c1 % 16) * 16 + c2 / 4]) else None
    case (Some(c0), Some(c1), None, None) =>
      if q[2] == Pad && q[3] == Pad then Some([c0 * 4 + c1 / 16]) else None
    case _ => None
  }

  /** Decodes a padded base64 text; None when its length is not a multiple of
      four, a character is outside the alphabet, or padding appears before
      the last group. */
  function Decode(s: string): Option<seq<Byte>>
    decreases |s|
  {
    if |s| == 0 then Some([])
    else if |s| < 4 then None
    else match DecodeQuad(s[..4])
      case None => None
      case Some(head) =>
        if |s| == 4 then Some(head)
        else if |head| < 3 then None
        else match Decode(s[4..])
          case None => None
          case Some(tail) => Some(head + tail)
  }

  lemma DecodeEncodedTriple(b0: Byte, b1: Byte, b2: Byte)
    ensures DecodeQuad(EncodeTriple(b0, b1, b2)) == Some([b0, b1, b2])
  {
    DigitValueOfDigit(b0 / 4);
    DigitValueOfDigit((b0 % 4) * 16 + b1 / 16);
    DigitValueOfDigit((b1 % 16) * 4 + b2 / 64);
    DigitValueOfDigit(b2 % 64);
  }

  lemma DecodeEncodedPair(b0: Byte, b1: Byte)
    ensures DecodeQuad([Digit(b0 / 4), Digit((b0 % 4) * 16 + b1 / 16), Digit((b1 % 16) * 4), Pad]) == Some([b0, b1])
  {
    var c0, c1, c2 := b0 / 4, (b0 % 4) * 16 + b1 / 16, (b1 % 16) * 4;
    DigitValueOfDigit(c0);
    DigitValueOfDigit(c1);
    DigitValueOfDigit(c2);
    assert c1 / 16 == b0 % 4 && c1 % 16 == b1 / 16 && c2 / 4 == b1 % 16;
    assert c0 * 4 + c1 / 16 == b0;
    assert (c1 % 16) * 16 + c2 / 4 == b1;
  }

  lemma DecodeEncodedSingle(b0: Byte)
    ensures DecodeQuad([Digit(b0 / 4), Digit((b0 % 4) * 16), Pad, Pad]) == Some([b0])
  {
    DigitValueOfDigit(b0 / 4);
    DigitValueOfDigit((b0 % 4) * 16);
  }

  lemma DecodeLastQuad(s: string)
    requires |s| == 4 && DecodeQuad(s).Some?
    ensures Decode(s) == DecodeQuad(s)
  {
    assert s[..4] == s;
  }

  lemma DecodeLeadingQuad(s: string, head: seq<Byte>, tail: seq<Byte>)
    requires |s| > 4 && DecodeQuad(s[..4]) == Some(head) && |head| == 3
    requires Decode(s[4..]) == Some(tail)
    ensures Decode(s) == Some(head + tail)
  {
  }

  lemma EncodeSingle(b: seq<Byte>)
    requires |b| == 1
    ensures Encode(b) == [Digit(b[0] / 4), Digit((b[0] % 4) * 16), Pad, Pad]
  {
  }

  lemma EncodePair(b: seq<Byte>)
    requires |b| == 2
    ensures Encode(b) == [Digit(b[0] / 4), Digit((b[0] % 4) * 16 + b[1] / 16), Digit((b[1] % 16) * 4), Pad]
  {
  }

  /** The padded group of one octet decodes to that octet. */
  lemma DecodeSingleGroup(b0: Byte)
    ensures Decode([Digit(b0 / 4), Digit((b0 % 4) * 16), Pad, Pad]) == Some([b0])
  {
    DecodeEncodedSingle(b0);
    DecodeLastQuad([Digit(b0 / 4), Digit((b0 % 4) * 16), Pad, Pad]);
  }

  /** The padded group of two octets decodes to those octets. */
  lemma DecodePairGroup(b0: Byte, b1: Byte)
    ensures Decode([Digit(b0 / 4), Digit((b0 % 4) * 16 + b1 / 16), Digit((b1 % 16) * 4), Pad]) == Some([b0, b1])
  {
    DecodeEncodedPair(b0, b1);
    DecodeLastQuad([Digit(b0 / 4), Digit((b0 % 4) * 16 + b1 / 16), Digit((b1 % 16) * 4), Pad]);
  }

  lemma RoundTripOne(b: seq<Byte>)
    requires |b| == 1
    ensures Decode(Encode(b)) == Some(b)
  {
    EncodeSingle(b);
    DecodeSingleGroup(b[0]);
    assert [b[0]] == b;
  }

  lemma RoundTripTwo(b: seq<Byte>)
    requires |b| == 2
    ensures Decode(Encode(b)) == Some(b)
  {
    EncodePair(b);
    DecodePairGroup(b[0], b[1]);
    assert [b[0], b[1]] == b;
  }

  /** Exactly three octets: one complete group. */
  lemma RoundTripThree(b: seq<Byte>)
    requires |b| == 3
    ensures Decode(Encode(b)) == Some(b)
  {
    var s := Encode(b);
    DecodeEncodedTriple(b[0], b[1], b[2]);
    assert s == EncodeTriple(b[0], b[1], b[2]);
    DecodeLastQuad(s);
    assert [b[0], b[1], b[2]] == b;
  }

  lemma EncodeLeadingTriple(b: seq<Byte>)
    requires |b| > 3
    ensures Encode(b) == EncodeTriple(b[0], b[1], b[2]) + Encode(b[3..])
  {
  }

  lemma SplitFirstThree(b: seq<Byte>)
    requires |b| >= 3
    ensures [b[0], b[1], b[2]] + b[3..] == b
  {
  }

  /** A complete leading group followed by a valid encoding decodes to the
      group's octets followed by that encoding's. */
  lemma DecodeConcat(t: string, rest: string, head: seq<Byte>, tail: seq<Byte>)
    requires |t| == 4 && DecodeQuad(t) == Some(head) && |head| == 3
    requires |rest| > 0 && Decode(rest) == Some(tail)
    ensures Decode(t + rest) == Some(head + tail)
  {
    var s := t + rest;
    assert s[..4] == t;
    assert s[4..] == rest;
    DecodeLeadingQuad(s, head, tail);
  }

  /** More than three octets: the leading complete group decodes to its three
      octets, ahead of whatever the rest of the encoding decodes to. */
  lemma DecodeAfterTriple(b: seq<Byte>)
    requires |b| > 3
    requires Decode(Encode(b[3..])) == Some(b[3..])
    ensures Decode(Encode(b)) == Some(b)
  {
    EncodeLeadingTriple(b);
    DecodeEncodedTriple(b[0], b[1], b[2]);
    SplitFirstThree(b);
    DecodeConcat(EncodeTriple(b[0], b[1], b[2]), Encode(b[3..]), [b[0], b[1], b[2]], b[3..]);
  }

  /** Decoding undoes encoding, for every octet sequence. */
  lemma {:induction false} RoundTrip(b: seq<Byte>)
    ensures Decode(Encode(b)) == Some(b)
    decreases |b|
  {
    if |b| == 1 {
      RoundTripOne(b);
    } else if |b| == 2 {
      RoundTripTwo(b);
    } else if |b| == 3 {
      RoundTripThree(b);
    } else if |b| > 3 {
      RoundTrip(b[3..]);
      DecodeAfterTriple(b);
    }
  }

  /** The test vectors of section 10 of RFC 4648, for the octets of "f",
      "fo", "foo", "foob", "fooba" and "foobar". */
  lemma Rfc4648TestVectors()
    ensures Encode([]) == ""
    ensures Encode([102]) == "Zg=="
    ensures Encode([102, 111]) == "Zm8="
    ensures Encode([102, 111, 111]) == "Zm9v"
    ensures Encode([102, 111, 111, 98]) == "Zm9vYg=="
    ensures Encode([102, 111, 111, 98, 97]) == "Zm9vYmE="
    ensures Encode([102, 111, 111, 98, 97, 114]) == "Zm9vYmFy"
  {
  }
}
