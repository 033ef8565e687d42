/**
 * Standard Base64 as java.util.Base64's basic encoder and decoder implement
 * it (section 4 of RFC 4648): the alphabet A-Z, a-z, 0-9, '+', '/', with
 * '=' padding on encoding; decoding accepts a final unit with or without
 * the right padding and rejects everything else.
 */
module Base64 {
  import opened Wrappers

  /** An unsigned byte. */
  type Byte = b: int | 0 <= b < 256

  /** A 6-bit value, the index of one Base64 character. */
  type Sextet = v: int | 0 <= v < 64

  /** The character of the Base64 alphabet for a 6-bit value. */
  function EncodeSextet(v: Sextet): (c: char)
  {
    if v < 26 then ('A' as int + v) as char
    else if v < 52 then ('a' as int + (v - 26)) as char
    else if v < 62 then ('0' as int + (v - 52)) as char
    else if v == 62 then '+'
    else '/'
  }

  /** Whether a character belongs to the Base64 alphabet ('=' does not). */
  predicate IsBase64Char(c: char)
  {
    ('A' <= c <= 'Z') || ('a' <= c <= 'z') || ('0' <= c <= '9') || c == '+' || c == '/'
  }

  /** The 6-bit value of an alphabet character. */
  function DecodeChar(c: char): (v: Sextet)
    requires IsBase64Char(c)
  {
    if 'A' <= c <= 'Z' then c as int - 'A' as int
    else if 'a' <= c <= 'z' then c as int - 'a' as int + 26
    else if '0' <= c <= '9' then c as int - '0' as int + 52
    else if c == '+' then 62
    else 63
  }

  /** Every 6-bit value encodes to an alphabet character that decodes back to it. */
  lemma SextetRoundTrip(v: Sextet)
    ensures IsBase64Char(EncodeSextet(v)) && DecodeChar(EncodeSextet(v)) == v
  {
  }

  /** Every alphabet character is the encoding of its value. */
  lemma CharRoundTrip(c: char)
    requires IsBase64Char(c)
    ensures EncodeSextet(DecodeChar(c)) == c
  {
  }

  /** Three bytes as four characters. */
  function EncodeTriple(b0: Byte, b1: Byte, b2: Byte): (r: string)
    ensures |r| == 4
  {
    [EncodeSextet(b0 / 4), EncodeSextet((b0 % 4) * 16 + b1 / 16), EncodeSextet((b1 % 16) * 4 + b2 / 64), EncodeSextet(b2 % 64)]
  }

  /**
   * Base64.getEncoder().encodeToString: each group of three bytes becomes
   * four characters; a final one or two bytes become two or three
   * characters padded with '=' to four.
   */
  function Encode(bytes: seq<Byte>): (r: string)
    ensures |r| == 4 * ((|bytes| + 2) / 3)
    decreases |bytes|
  {
    if |bytes| == 0 then ""
    else if |bytes| == 1 then
      [EncodeSextet(bytes[0] / 4), EncodeSextet((bytes[0] % 4) * 16), '=', '=']
    else if |bytes| == 2 then
      [EncodeSextet(bytes[0] / 4), EncodeSextet((bytes[0] % 4) * 16 + bytes[1] / 16), EncodeSextet((bytes[1] % 16) * 4), '=']
    else EncodeTriple(bytes[0], bytes[1], bytes[2]) + Encode(bytes[3..])
  }

  /** Every encoded character is in the alphabet, except padding at the end of the last group. */
  lemma {:induction false} EncodeCharacters(bytes: seq<Byte>)
    ensures forall i :: 0 <= i < |Encode(bytes)| ==>
      IsBase64Char(Encode(bytes)[i]) || (Encode(bytes)[i] == '=' && i >= |Encode(bytes)| - 2)
    decreases |bytes|
  {
    var r := Encode(bytes);
    if |bytes| >= 3 {
      EncodeCharacters(bytes[3..]);
      var t := EncodeTriple(bytes[0], bytes[1], bytes[2]);
      SextetRoundTrip(bytes[0] / 4);
      SextetRoundTrip((bytes[0] % 4) * 16 + bytes[1] / 16);
      SextetRoundTrip((bytes[1] % 16) * 4 + bytes[2] / 64);
      SextetRoundTrip(bytes[2] % 64);
      assert forall i :: 0 <= i < 4 ==> IsBase64Char(t[i]);
      assert forall i :: 4 <= i < |r| ==> r[i] == Encode(bytes[3..])[i - 4];
    } else if |bytes| == 2 {
      SextetRoundTrip(bytes[0] / 4);
      SextetRoundTrip((bytes[0] % 4) * 16 + bytes[1] / 16);
      SextetRoundTrip((bytes[1] % 16) * 4);
    } else if |bytes| == 1 {
      SextetRoundTrip(bytes[0] / 4);
      SextetRoundTrip((bytes[0] % 4) * 16);
    }
  }

  /** Four alphabet characters as three bytes. */
  function DecodeQuad(c0: char, c1: char, c2: char, c3: char): (r: seq<Byte>)
    requires IsBase64Char(c0) && IsBase64Char(c1) && IsBase64Char(c2) && IsBase64Char(c3)
    ensures |r| == 3
  {
    var v0, v1, v2, v3 := DecodeChar(c0), DecodeChar(c1), DecodeChar(c2), DecodeChar(c3);
    [v0 * 4 + v1 / 16, (v1 % 16) * 16 + v2 / 4, (v2 % 4) * 64 + v3]
  }

  /**
   * Base64.getDecoder().decode: full groups of four alphabet characters give
   * three bytes each; the final unit may be two or three characters, bare or
   * with the matching padding; any other character, a lone final character,
   * wrong padding or anything after padding throws IllegalArgumentException.
   */
  function Decode(s: string): (r: Result<seq<Byte>, Exception>)
    ensures r.Failure? ==> r.error == IllegalArgumentException
    decreases |s|
  {
    if |s| == 0 then Success([])
    else if |s| >= 4 && IsBase64Char(s[0]) && IsBase64Char(s[1]) && IsBase64Char(s[2]) && IsBase64Char(s[3]) then
      match Decode(s[4..])
      case Failure(e) => Failure(e)
      case Success(rest) => Success(DecodeQuad(s[0], s[1], s[2], s[3]) + rest)
    else if |s| >= 2 && IsBase64Char(s[0]) && IsBase64Char(s[1]) then
      var v0, v1 := DecodeChar(s[0]), DecodeChar(s[1]);
      if |s| == 2 || (|s| == 4 && s[2] == '=' && s[3] == '=') then Success([v0 * 4 + v1 / 16])
      else if IsBase64Char(s[2]) && (|s| == 3 || (|s| == 4 && s[3] == '=')) then
        var v2 := DecodeChar(s[2]);
        Success([v0 * 4 + v1 / 16, (v1 % 16) * 16 + v2 / 4])
      else Failure(IllegalArgumentException)
    else Failure(IllegalArgumentException)
  }

  /** Splitting a byte into its high six and low two bits and joining them back gives the byte. */
  lemma ByteSplits(b0: Byte, b1: Byte, b2: Byte)
    ensures (b0 / 4) * 4 + ((b0 % 4) * 16 + b1 / 16) / 16 == b0
    ensures (((b0 % 4) * 16 + b1 / 16) % 16) * 16 + ((b1 % 16) * 4 + b2 / 64) / 4 == b1
    ensures (((b1 % 16) * 4 + b2 / 64) % 4) * 64 + b2 % 64 == b2
  {
    assert ((b0 % 4) * 16 + b1 / 16) / 16 == b0 % 4;
    assert ((b0 % 4) * 16 + b1 / 16) % 16 == b1 / 16;
    assert ((b1 % 16) * 4 + b2 / 64) / 4 == b1 % 16;
    assert ((b1 % 16) * 4 + b2 / 64) % 4 == b2 / 64;
  }

  /** Decoding the encoding of three bytes gives the three bytes. */
  lemma TripleRoundTrip(b0: Byte, b1: Byte, b2: Byte)
    ensures var t := EncodeTriple(b0, b1, b2);
      IsBase64Char(t[0]) && IsBase64Char(t[1]) && IsBase64Char(t[2]) && IsBase64Char(t[3]) &&
      DecodeQuad(t[0], t[1], t[2], t[3]) == [b0, b1, b2]
  {
    SextetRoundTrip(b0 / 4);
    SextetRoundTrip((b0 % 4) * 16 + b1 / 16);
    SextetRoundTrip((b1 % 16) * 4 + b2 / 64);
    SextetRoundTrip(b2 % 64);
    ByteSplits(b0, b1, b2);
  }

  /** A final single byte survives encoding and decoding. */
  lemma OneByteRoundTrip(b0: Byte)
    ensures Decode(Encode([b0])) == Success([b0])
  {
    var v0, v1 := b0 / 4, (b0 % 4) * 16;
    SextetRoundTrip(v0);
    SextetRoundTrip(v1);
    var s := Encode([b0]);
    assert s == [EncodeSextet(v0), EncodeSextet(v1), '=', '='];
    assert !IsBase64Char(s[3]);
    assert v0 * 4 + v1 / 16 == b0;
  }

  /** A final pair of bytes survives encoding and decoding. */
  lemma TwoBytesRoundTrip(b0: Byte, b1: Byte)
    ensures Decode(Encode([b0, b1])) == Success([b0, b1])
  {
    var v0, v1, v2 := b0 / 4, (b0 % 4) * 16 + b1 / 16, (b1 % 16) * 4;
    SextetRoundTrip(v0);
    SextetRoundTrip(v1);
    SextetRoundTrip(v2);
    var s := Encode([b0, b1]);
    assert s == [EncodeSextet(v0), EncodeSextet(v1), EncodeSextet(v2), '='];
    assert !IsBase64Char(s[3]);
    ByteSplits(b0, b1, 0);
    assert v0 * 4 + v1 / 16 == b0;
    assert (v1 % 16) * 16 + v2 / 4 == b1;
  }

  /** Decoding an encoding gives back the bytes: the encoder's output is always accepted. */
  lemma {:induction false} DecodeEncode(bytes: seq<Byte>)
    ensures Decode(Encode(bytes)) == Success(bytes)
    decreases |bytes|
  {
    if |bytes| == 1 {
      assert bytes == [bytes[0]];
      OneByteRoundTrip(bytes[0]);
    } else if |bytes| == 2 {
      assert bytes == [bytes[0], bytes[1]];
      TwoBytesRoundTrip(bytes[0], bytes[1]);
    } else if |bytes| >= 3 {
      var t := EncodeTriple(bytes[0], bytes[1], bytes[2]);
      TripleRoundTrip(bytes[0], bytes[1], bytes[2]);
      DecodeEncode(bytes[3..]);
      assert Encode(bytes) == t + Encode(bytes[3..]);
      DecodeFullGroup(t, Encode(bytes[3..]));
      SplitsAfterThree(bytes);
    }
  }

  /** A sequence of at least three bytes is its first three followed by the rest. */
  lemma SplitsAfterThree(bytes: seq<Byte>)
    requires |bytes| >= 3
    ensures [bytes[0], bytes[1], bytes[2]] + bytes[3..] == bytes
  {
    var joined := [bytes[0], bytes[1], bytes[2]] + bytes[3..];
    assert |joined| == |bytes|;
    forall i | 0 <= i < |bytes|
      ensures joined[i] == bytes[i]
    {
      if i >= 3 {
        assert joined[i] == bytes[3..][i - 3];
      }
    }
  }

  /** A leading group of four alphabet characters decodes to its three bytes before the rest. */
  lemma DecodeFullGroup(t: string, rest: string)
    requires |t| == 4 && IsBase64Char(t[0]) && IsBase64Char(t[1]) && IsBase64Char(t[2]) && IsBase64Char(t[3])
    ensures Decode(t + rest) ==
      match Decode(rest)
      case Failure(e) => Failure(e)
      case Success(r) => Success(DecodeQuad(t[0], t[1], t[2], t[3]) + r)
  {
    var s := t + rest;
    assert s[4..] == rest;
    assert s[0] == t[0] && s[1] == t[1] && s[2] == t[2] && s[3] == t[3];
  }

  /** A padding character anywhere but in the last two places makes decoding throw. */
  lemma DecodeRejectsShortUnit(c: char)
    requires IsBase64Char(c)
    ensures Decode([c]).Failure?
    ensures Decode([c, c, '=']).Failure?
  {
  }
}
