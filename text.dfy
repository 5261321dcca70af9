/**
 * Character strings as the callbacks hand them to the stack: encoded as ASCII
 * (one byte per character, '?' for a character outside 7-bit ASCII) and copied
 * into a value buffer of bounded length.
 */
module Text {
  import opened Bacnet

  /** The byte ASCII encoding gives one character. */
  function AsciiByte(c: char): (b: byte)
    ensures b < 0x80
    ensures c as int < 0x80 ==> b == c as int
  {
    if c as int < 0x80 then c as int else '?' as int
  }

  /** ASCII encoding of a string: one byte for each character, in order. */
  function AsciiBytes(s: string): (bs: seq<byte>)
    ensures |bs| == |s|
    ensures forall i :: 0 <= i < |s| ==> bs[i] == AsciiByte(s[i])
  {
    if s == [] then [] else [AsciiByte(s[0])] + AsciiBytes(s[1..])
  }

  predicate IsAscii(s: string)
  {
    forall i :: 0 <= i < |s| ==> s[i] as int < 0x80
  }

  /** How a reader of the value buffer turns ASCII bytes back into characters. */
  function AsciiString(bs: seq<byte>): (s: string)
    ensures |s| == |bs|
  {
    if bs == [] then [] else [bs[0] as char] + AsciiString(bs[1..])
  }

  /** Encoding an ASCII string and decoding the bytes gives the string back. */
  lemma {:induction false} AsciiRoundTrip(s: string)
    requires IsAscii(s)
    ensures AsciiString(AsciiBytes(s)) == s
  {
    if s != [] {
      assert IsAscii(s[1..]) by {
        forall i | 0 <= i < |s[1..]|
          ensures s[1..][i] as int < 0x80
        {
          assert s[1..][i] == s[i + 1];
        }
      }
      AsciiRoundTrip(s[1..]);
      var bs := AsciiBytes(s);
      assert bs[1..] == AsciiBytes(s[1..]);
      assert (bs[0] as char) == s[0];
    }
  }

  /**
   * Copies the ASCII encoding of s into a value buffer that holds at most
   * maxElementCount bytes; returns the number of bytes copied together with
   * the bytes copied.
   */
  function UpdateStringAndReturnSize(maxElementCount: nat, s: string): (r: (nat, seq<byte>))
    ensures r.0 == |r.1|
    ensures r.0 <= maxElementCount && r.0 <= |s|
    ensures r.0 == |s| || r.0 == maxElementCount
    ensures r.1 <= AsciiBytes(s)
  {
    var bytes := AsciiBytes(s);
    var count := if |bytes| < maxElementCount then |bytes| else maxElementCount;
    (count, bytes[..count])
  }

  /** A string that fits the buffer arrives whole: the reader decodes exactly the string. */
  lemma StringThatFitsArrivesWhole(maxElementCount: nat, s: string)
    requires IsAscii(s) && |s| <= maxElementCount
    ensures UpdateStringAndReturnSize(maxElementCount, s).0 == |s|
    ensures AsciiString(UpdateStringAndReturnSize(maxElementCount, s).1) == s
  {
    var r := UpdateStringAndReturnSize(maxElementCount, s);
    assert r.1 == AsciiBytes(s);
    AsciiRoundTrip(s);
  }

  /** A string longer than the buffer arrives as its first maxElementCount characters. */
  lemma LongStringIsTruncated(maxElementCount: nat, s: string)
    requires IsAscii(s) && maxElementCount < |s|
    ensures UpdateStringAndReturnSize(maxElementCount, s).0 == maxElementCount
    ensures AsciiString(UpdateStringAndReturnSize(maxElementCount, s).1) == s[..maxElementCount]
  {
    var prefix := s[..maxElementCount];
    assert IsAscii(prefix) by {
      forall i | 0 <= i < |prefix|
        ensures prefix[i] as int < 0x80
      {
        assert prefix[i] == s[i];
      }
    }
    var r := UpdateStringAndReturnSize(maxElementCount, s);
    assert r.1 == AsciiBytes(prefix);
    AsciiRoundTrip(prefix);
  }

  /** A string callback's answer: true, with the string copied by UpdateStringAndReturnSize and its count. */
  function CopyOut(maxElementCount: uint32, s: string): (r: Answer<(nat, seq<byte>)>)
    ensures r.Value? && r.value.0 == |r.value.1| <= maxElementCount
  {
    Value(UpdateStringAndReturnSize(maxElementCount, s))
  }
}
