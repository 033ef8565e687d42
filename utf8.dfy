/**
 * UTF-8 encoding of strings, as String.getBytes(StandardCharsets.UTF_8)
 * produces it: one to four bytes per Unicode scalar value, with ASCII
 * characters kept as single bytes.
 */
module Utf8 {
  import opened Base64

  /** Whether every character is ASCII. */
  predicate IsAscii(s: string)
  {
    forall i :: 0 <= i < |s| ==> s[i] as int < 128
  }

  /** The UTF-8 bytes of one scalar value. */
  function EncodeScalar(c: char): (r: seq<Byte>)
    ensures 1 <= |r| <= 4
    ensures |r| == 1 <==> c as int < 128
    ensures |r| == 1 ==> r[0] == c as int
    ensures r[0] < 128 <==> c as int < 128
    ensures forall i :: 1 <= i < |r| ==> 128 <= r[i] < 192
  {
    var n := c as int;
    if n < 0x80 then [n]
    else if n < 0x800 then [0xC0 + n / 64, 0x80 + n % 64]
    else if n < 0x1_0000 then [0xE0 + n / 4096, 0x80 + (n / 64) % 64, 0x80 + n % 64]
    else [0xF0 + n / 262144, 0x80 + (n / 4096) % 64, 0x80 + (n / 64) % 64, 0x80 + n % 64]
  }

  /** The UTF-8 bytes of a string, character after character. */
  function Encode(s: string): (r: seq<Byte>)
    ensures |r| >= |s|
    decreases |s|
  {
    if |s| == 0 then [] else EncodeScalar(s[0]) + Encode(s[1..])
  }

  /** Encoding distributes over concatenation. */
  lemma {:induction false} EncodeAppend(a: string, b: string)
    ensures Encode(a + b) == Encode(a) + Encode(b)
    decreases |a|
  {
    if |a| > 0 {
      assert (a + b)[1..] == a[1..] + b;
      EncodeAppend(a[1..], b);
    } else {
      assert a + b == b;
    }
  }

  /** An ASCII string encodes to its character codes, one byte each. */
  lemma {:induction false} EncodeAscii(s: string)
    requires IsAscii(s)
    ensures |Encode(s)| == |s|
    ensures forall i :: 0 <= i < |s| ==> Encode(s)[i] == s[i] as int
    decreases |s|
  {
    if |s| > 0 {
      EncodeAscii(s[1..]);
    }
  }

  /** A string encodes to ASCII bytes only; a character outside ASCII adds a byte of 128 or more. */
  lemma {:induction false} EncodeAsciiExactly(s: string)
    ensures IsAscii(s) <==> forall i :: 0 <= i < |Encode(s)| ==> Encode(s)[i] < 128
    decreases |s|
  {
    if |s| > 0 {
      EncodeAsciiExactly(s[1..]);
      var head := EncodeScalar(s[0]);
      assert forall i :: |head| <= i < |Encode(s)| ==> Encode(s)[i] == Encode(s[1..])[i - |head|];
      assert forall i :: 0 <= i < |head| ==> Encode(s)[i] == head[i];
      if IsAscii(s) {
        assert IsAscii(s[1..]) by {
          assert forall i :: 0 <= i < |s[1..]| ==> s[1..][i] == s[i + 1];
        }
        assert |head| == 1 && head[0] < 128;
        assert forall i :: 0 <= i < |Encode(s)| ==> Encode(s)[i] < 128 by {
          forall i | 0 <= i < |Encode(s)|
            ensures Encode(s)[i] < 128
          {
            if i >= 1 {
              assert Encode(s)[i] == Encode(s[1..])[i - 1];
            }
          }
        }
      } else if s[0] as int >= 128 {
        assert Encode(s)[0] >= 128;
      } else {
        assert !IsAscii(s[1..]) by {
          var k :| 0 <= k < |s| && s[k] as int >= 128;
          assert s[1..][k - 1] == s[k];
        }
        var j :| 0 <= j < |Encode(s[1..])| && Encode(s[1..])[j] >= 128;
        assert Encode(s)[j + |head|] >= 128;
      }
    }
  }
}
