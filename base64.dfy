/** Base64 with the standard alphabet of section 4 of RFC 4648 and the
    padding omitted (Go's `base64.RawStdEncoding`), which carries document
    content inside a Kafka JSON message. The decoder is the encoder's
    partner: every encoding decodes back to the bytes it came from. */
module Base64 {
  import opened Common

  /** An octet. */
  newtype Byte = x: int | 0 <= x < 256

  /** The character for a 6-bit value. */
  function Alphabet(v: nat): (c: char)
    requires v < 64
  {
    if v < 26 then ('A' as int + v) as char
    else if v < 52 then ('a' as int + (v - 26)) as char
    else if v < 62 then ('0' as int + (v - 52)) as char
    else if v == 62 then '+'
    else '/'
  }

  /** The 6-bit value of an alphabet character. */
  function ValueOf(c: char): (r: Option<nat>)
    ensures r.Some? ==> r.value < 64
  {
    if 'A' <= c <= 'Z' then Some(c as int - 'A' as int)
    else if 'a' <= c <= 'z' then Some(c as int - 'a' as int + 26)
    else if '0' <= c <= '9' then Some(c as int - '0' as int + 52)
    else if c == '+' then Some(62)
    else if c == '/' then Some(63)
    else None
  }

  /** The alphabet has 64 distinct characters. */
  lemma ValueOfAlphabet(v: nat)
    requires v < 64
    ensures ValueOf(Alphabet(v)) == Some(v)
  {
  }

  /** Three bytes as four characters. */
  function EncodeTriple(b0: nat, b1: nat, b2: nat): string
    requires b0 < 256 && b1 < 256 && b2 < 256
  {
    [Alphabet(b0 / 4), Alphabet((b0 % 4) * 16 + b1 / 16), Alphabet((b1 % 16) * 4 + b2 / 64), Alphabet(b2 % 64)]
  }

  /** `RawStdEncoding.EncodeToString`: whole groups of three bytes, then two
      characters for one leftover byte or three for two, without '='. */
  function Encode(b: seq<Byte>): (s: string)
    ensures |s| == (4 * |b| + 2) / 3
    decreases |b|
  {
    if |b| == 0 then ""
    else if |b| == 1 then
      EncodeTriple(b[0] as nat, 0, 0)[..2]
    else if |b| == 2 then
      EncodeTriple(b[0] as nat, b[1] as nat, 0)[..3]
    else
      EncodeTriple(b[0] as nat, b[1] as nat, b[2] as nat) + Encode(b[3..])
  }

  /** The three bytes packed in four 6-bit values. */
  function DecodeQuad(c0: nat, c1: nat, c2: nat, c3: nat): seq<Byte>
    requires c0 < 64 && c1 < 64 && c2 < 64 && c3 < 64
  {
    [(c0 * 4 + c1 / 16) as Byte, ((c1 % 16) * 16 + c2 / 4) as Byte, ((c2 % 4) * 64 + c3) as Byte]
  }

  /** The decoder: `None` for a character outside the alphabet or a final
      group of one character. */
  function Decode(s: string): (r: Option<seq<Byte>>)
    decreases |s|
  {
    if |s| == 0 then Some([])
    else if |s| == 1 then None
    else
      var v0 := ValueOf(s[0]);
      var v1 := ValueOf(s[1]);
      var v2 := if |s| > 2 then ValueOf(s[2]) else Some(0);
      var v3 := if |s| > 3 then ValueOf(s[3]) else Some(0);
      if v0.None? || v1.None? || v2.None? || v3.None? then None
      else
        var bytes := DecodeQuad(v0.value, v1.value, v2.value, v3.value);
        if |s| == 2 then Some(bytes[..1])
        else if |s| == 3 then Some(bytes[..2])
        else
          var rest := Decode(s[4..]);
          if rest.None? then None else Some(bytes + rest.value)
  }

  /** Every character of an encoding is in the alphabet. */
  lemma {:induction false} EncodeInAlphabet(b: seq<Byte>)
    ensures forall i :: 0 <= i < |Encode(b)| ==> ValueOf(Encode(b)[i]).Some?
    decreases |b|
  {
    if |b| > 0 {
      var b0, b1, b2 := b[0] as nat, if |b| > 1 then b[1] as nat else 0, if |b| > 2 then b[2] as nat else 0;
      EncodeTripleValues(b0, b1, b2);
      if |b| > 2 {
        EncodeInAlphabet(b[3..]);
      }
    }
  }

  /** The bit arithmetic of one group: the 6-bit values of three bytes give
      those bytes back. */
  lemma TripleRoundTrip(b0: nat, b1: nat, b2: nat)
    requires b0 < 256 && b1 < 256 && b2 < 256
    ensures var c0, c1, c2, c3 := b0 / 4, (b0 % 4) * 16 + b1 / 16, (b1 % 16) * 4 + b2 / 64, b2 % 64;
      c0 < 64 && c1 < 64 && c2 < 64 && c3 < 64 &&
      c0 * 4 + c1 / 16 == b0 && (c1 % 16) * 16 + c2 / 4 == b1 && (c2 % 4) * 64 + c3 == b2
  {
  }

  /** The values read back from an encoded group are the values written. */
  lemma EncodeTripleValues(b0: nat, b1: nat, b2: nat)
    requires b0 < 256 && b1 < 256 && b2 < 256
    ensures var s := EncodeTriple(b0, b1, b2);
      ValueOf(s[0]) == Some(b0 / 4) && ValueOf(s[1]) == Some((b0 % 4) * 16 + b1 / 16) &&
      ValueOf(s[2]) == Some((b1 % 16) * 4 + b2 / 64) && ValueOf(s[3]) == Some(b2 % 64)
  {
    ValueOfAlphabet(b0 / 4);
    ValueOfAlphabet((b0 % 4) * 16 + b1 / 16);
    ValueOfAlphabet((b1 % 16) * 4 + b2 / 64);
    ValueOfAlphabet(b2 % 64);
  }

  /** One group decodes to the three bytes it encodes. */
  lemma QuadOfTriple(b: Byte, c: Byte, d: Byte)
    ensures var b0, b1, b2 := b as nat, c as nat, d as nat;
      DecodeQuad(b0 / 4, (b0 % 4) * 16 + b1 / 16, (b1 % 16) * 4 + b2 / 64, b2 % 64) == [b, c, d]
  {
    TripleRoundTrip(b as nat, c as nat, d as nat);
  }

  /** One group, seen from the decoder: the four characters are in the
      alphabet and their values give the three bytes back; zero bytes at
      the end make zero values. */
  lemma GroupRoundTrip(b0: Byte, b1: Byte, b2: Byte)
    ensures var t := EncodeTriple(b0 as nat, b1 as nat, b2 as nat);
      && ValueOf(t[0]).Some? && ValueOf(t[1]).Some? && ValueOf(t[2]).Some? && ValueOf(t[3]).Some?
      && DecodeQuad(ValueOf(t[0]).value, ValueOf(t[1]).value, ValueOf(t[2]).value, ValueOf(t[3]).value) == [b0, b1, b2]
      && (b2 == 0 ==> ValueOf(t[3]).value == 0)
      && (b1 == 0 && b2 == 0 ==> ValueOf(t[2]).value == 0)
  {
    EncodeTripleValues(b0 as nat, b1 as nat, b2 as nat);
    QuadOfTriple(b0, b1, b2);
  }

  lemma DecodeEncodeOne(b: seq<Byte>)
    requires |b| == 1
    ensures Decode(Encode(b)) == Some(b)
  {
    var t := EncodeTriple(b[0] as nat, 0, 0);
    GroupRoundTrip(b[0], 0, 0);
    var s := Encode(b);
    assert s == t[..2];
    assert s[0] == t[0] && s[1] == t[1];
    var q := DecodeQuad(ValueOf(t[0]).value, ValueOf(t[1]).value, 0, 0);
    assert q == [b[0], 0, 0];
    assert Decode(s) == Some(q[..1]);
    assert q[..1] == b;
  }

  lemma DecodeEncodeTwo(b: seq<Byte>)
    requires |b| == 2
    ensures Decode(Encode(b)) == Some(b)
  {
    var t := EncodeTriple(b[0] as nat, b[1] as nat, 0);
    GroupRoundTrip(b[0], b[1], 0);
    var s := Encode(b);
    assert s == t[..3];
    assert s[0] == t[0] && s[1] == t[1] && s[2] == t[2];
    var q := DecodeQuad(ValueOf(t[0]).value, ValueOf(t[1]).value, ValueOf(t[2]).value, 0);
    assert q == [b[0], b[1], 0];
    assert Decode(s) == Some(q[..2]);
    assert q[..2] == b;
  }

  /** How the decoder reads a full group followed by more text. */
  lemma DecodeGroup(s: string)
    requires |s| >= 4
    requires ValueOf(s[0]).Some? && ValueOf(s[1]).Some? && ValueOf(s[2]).Some? && ValueOf(s[3]).Some?
    requires Decode(s[4..]).Some?
    ensures Decode(s) == Some(DecodeQuad(ValueOf(s[0]).value, ValueOf(s[1]).value, ValueOf(s[2]).value, ValueOf(s[3]).value)
                              + Decode(s[4..]).value)
  {
  }

  /** Round trip: decoding an encoding gives back the original bytes. */
  lemma {:induction false} DecodeEncode(b: seq<Byte>)
    ensures Decode(Encode(b)) == Some(b)
    decreases |b|
  {
    if |b| == 1 {
      DecodeEncodeOne(b);
    } else if |b| == 2 {
      DecodeEncodeTwo(b);
    } else if |b| > 2 {
      var t := EncodeTriple(b[0] as nat, b[1] as nat, b[2] as nat);
      var rest := Encode(b[3..]);
      var s := Encode(b);
      assert s == t + rest;
      assert s[4..] == rest;
      assert s[0] == t[0] && s[1] == t[1] && s[2] == t[2] && s[3] == t[3];
      GroupRoundTrip(b[0], b[1], b[2]);
      DecodeEncode(b[3..]);
      DecodeGroup(s);
      assert [b[0], b[1], b[2]] + b[3..] == b;
    }
  }

  /** Encoding is injective: different contents never share an encoding. */
  lemma EncodeInjective(a: seq<Byte>, b: seq<Byte>)
    requires Encode(a) == Encode(b)
    ensures a == b
  {
    DecodeEncode(a);
    DecodeEncode(b);
  }
}
