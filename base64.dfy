/**
 * The base64 encoding of section 4 of RFC 4648 over byte values, with the
 * strict decoder that section 3 allows: the input length must be a multiple
 * of four, only alphabet characters may appear, padding ('=') may only end
 * the last quantum, and the bits the padding discards must be zero.
 * Encoding and decoding are proved to be inverse in both directions.
 */
module Base64 {
  import opened Wrappers

  /** A byte value, as held by a Uint8Array element or a "binary string" character. */
  type Byte = b: int | 0 <= b < 256

  /** A six-bit value, the index of a character in the base64 alphabet. */
  type Sextet = v: int | 0 <= v < 64

  const Pad: char := '='

  /** The character of the alphabet (table 1 of RFC 4648) that stands for `v`. */
  function CharOf(v: Sextet): (c: char)
    ensures ValueOf(c) == Some(v)
    ensures c != Pad
  {
    if v < 26 then ('A' as int + v) as char
    else if v < 52 then ('a' as int + (v - 26)) as char
    else if v < 62 then ('0' as int + (v - 52)) as char
    else if v == 62 then '+'
    else '/'
  }

  /** The value of an alphabet character; None for every other character, `=` included. */
  function ValueOf(c: char): (r: Option<Sextet>)
  {
    if 'A' <= c <= 'Z' then Some(c as int - 'A' as int)
    else if 'a' <= c <= 'z' then Some(c as int - 'a' as int + 26)
    else if '0' <= c <= '9' then Some(c as int - '0' as int + 52)
    else if c == '+' then Some(62)
    else if c == '/' then Some(63)
    else None
  }

  lemma CharOfValueOf(c: char)
    requires ValueOf(c).Some?
    ensures CharOf(ValueOf(c).value) == c
  {
  }

  /** The four characters that encode three bytes. */
  function EncodeTriple(b0: Byte, b1: Byte, b2: Byte): seq<char>
  {
    [CharOf(b0 / 4), CharOf(b0 % 4 * 16 + b1 / 16), CharOf(b1 % 16 * 4 + b2 / 64), CharOf(b2 % 64)]
  }

  /** The final quantum for two remaining bytes: three characters and one `=`. */
  function EncodePair(b0: Byte, b1: Byte): seq<char>
  {
    [CharOf(b0 / 4), CharOf(b0 % 4 * 16 + b1 / 16), CharOf(b1 % 16 * 4), Pad]
  }

  /** The final quantum for one remaining byte: two characters and `==`. */
  function EncodeSingle(b0: Byte): seq<char>
  {
    [CharOf(b0 / 4), CharOf(b0 % 4 * 16), Pad, Pad]
  }

  /** Base64 encoding of `b`, padded to a multiple of four characters. */
  function Encode(b: seq<Byte>): (s: seq<char>)
    ensures |s| == (|b| + 2) / 3 * 4
    decreases |b|
  {
    if |b| == 0 then []
    else if |b| == 1 then EncodeSingle(b[0])
    else if |b| == 2 then EncodePair(b[0], b[1])
    else EncodeTriple(b[0], b[1], b[2]) + Encode(b[3..])
  }

  /** The first byte carried by the sextets `v0 v1`: its six high bits, then two. */
  function FirstByte(v0: Sextet, v1: Sextet): Byte
  {
    (v0 as int) * 4 + (v1 as int) / 16
  }

  /** The second byte carried by the sextets `v1 v2`: four bits of each. */
  function SecondByte(v1: Sextet, v2: Sextet): Byte
  {
    (v1 as int) % 16 * 16 + (v2 as int) / 4
  }

  /** The third byte carried by the sextets `v2 v3`: two bits, then six. */
  function ThirdByte(v2: Sextet, v3: Sextet): Byte
  {
    (v2 as int) % 4 * 64 + (v3 as int)
  }

  lemma Split16(q: int, r: int)
    requires 0 <= r < 16
    ensures (q * 16 + r) / 16 == q && (q * 16 + r) % 16 == r
  {
  }

  lemma Split4(q: int, r: int)
    requires 0 <= r < 4
    ensures (q * 4 + r) / 4 == q && (q * 4 + r) % 4 == r
  {
  }

  lemma Split64(q: int, r: int)
    requires 0 <= r < 64
    ensures (q * 64 + r) / 64 == q && (q * 64 + r) % 64 == r
  {
  }

  /** Splitting three bytes into sextets and joining them again gives the bytes back. */
  lemma JoinSplit(b0: Byte, b1: Byte, b2: Byte)
    ensures FirstByte(b0 / 4, b0 % 4 * 16 + b1 / 16) == b0
    ensures SecondByte(b0 % 4 * 16 + b1 / 16, b1 % 16 * 4 + b2 / 64) == b1
    ensures ThirdByte(b1 % 16 * 4 + b2 / 64, b2 % 64) == b2
  {
    Split16(b0 % 4, b1 / 16);
    Split4(b1 % 16, b2 / 64);
  }

  /** Joining four sextets into bytes and splitting them again gives the sextets back. */
  lemma SplitJoin(v0: Sextet, v1: Sextet, v2: Sextet, v3: Sextet)
    ensures FirstByte(v0, v1) / 4 == v0
    ensures FirstByte(v0, v1) % 4 * 16 + SecondByte(v1, v2) / 16 == v1
    ensures SecondByte(v1, v2) % 16 * 4 + ThirdByte(v2, v3) / 64 == v2
    ensures ThirdByte(v2, v3) % 64 == v3
  {
    Split4(v0, v1 / 16);
    Split16(v1 % 16, v2 / 4);
    Split64(v2 % 4, v3);
  }

  /** True when every character of `q` belongs to the alphabet. */
  predicate AllValued(q: seq<char>)
  {
    forall i :: 0 <= i < |q| ==> ValueOf(q[i]).Some?
  }

  /** Decodes four characters none of which is padding. */
  function DecodeQuad(q: seq<char>): (r: Option<seq<Byte>>)
    requires |q| == 4
  {
    if AllValued(q) then
      var v0, v1, v2, v3 := ValueOf(q[0]).value, ValueOf(q[1]).value, ValueOf(q[2]).value, ValueOf(q[3]).value;
      Some([FirstByte(v0, v1), SecondByte(v1, v2), ThirdByte(v2, v3)])
    else None
  }

  /**
   * Decodes the last four characters of the input, which may end in one or
   * two padding characters; rejects padding whose discarded bits are not zero.
   */
  function DecodeLast(q: seq<char>): (r: Option<seq<Byte>>)
    requires |q| == 4
  {
    if q[2] == Pad && q[3] == Pad then
      if AllValued(q[..2]) && ValueOf(q[1]).value % 16 == 0 then
        Some([FirstByte(ValueOf(q[0]).value, ValueOf(q[1]).value)])
      else None
    else if q[3] == Pad then
      if AllValued(q[..3]) && ValueOf(q[2]).value % 4 == 0 then
        var v0, v1, v2 := ValueOf(q[0]).value, ValueOf(q[1]).value, ValueOf(q[2]).value;
        Some([FirstByte(v0, v1), SecondByte(v1, v2)])
      else None
    else DecodeQuad(q)
  }

  /** Strict base64 decoding; None when `s` is not the encoding of any byte sequence. */
  function Decode(s: seq<char>): (r: Option<seq<Byte>>)
    decreases |s|
  {
    if |s| == 0 then Some([])
    else if |s| < 4 then None
    else if |s| == 4 then DecodeLast(s)
    else
      match DecodeQuad(s[..4])
      case None => None
      case Some(head) =>
        match Decode(s[4..])
        case None => None
        case Some(tail) => Some(head + tail)
  }

  lemma TripleRoundTrip(b0: Byte, b1: Byte, b2: Byte)
    ensures EncodeTriple(b0, b1, b2)[3] != Pad
    ensures DecodeQuad(EncodeTriple(b0, b1, b2)) == Some([b0, b1, b2])
  {
    var q := EncodeTriple(b0, b1, b2);
    var v0: Sextet := b0 / 4;
    var v1: Sextet := b0 % 4 * 16 + b1 / 16;
    var v2: Sextet := b1 % 16 * 4 + b2 / 64;
    var v3: Sextet := b2 % 64;
    assert q == [CharOf(v0), CharOf(v1), CharOf(v2), CharOf(v3)];
    assert ValueOf(q[0]) == Some(v0);
    assert ValueOf(q[1]) == Some(v1);
    assert ValueOf(q[2]) == Some(v2);
    assert ValueOf(q[3]) == Some(v3);
    assert AllValued(q);
    JoinSplit(b0, b1, b2);
    assert FirstByte(v0, v1) == b0 && SecondByte(v1, v2) == b1 && ThirdByte(v2, v3) == b2;
  }

  lemma SingleRoundTrip(b0: Byte)
    ensures DecodeLast(EncodeSingle(b0)) == Some([b0])
  {
    var q := EncodeSingle(b0);
    var v0: Sextet := b0 / 4;
    var v1: Sextet := b0 % 4 * 16;
    assert q == [CharOf(v0), CharOf(v1), Pad, Pad];
    assert q[2] == Pad && q[3] == Pad;
    assert ValueOf(q[0]) == Some(v0);
    assert ValueOf(q[1]) == Some(v1);
    assert q[..2] == [q[0], q[1]];
    assert AllValued(q[..2]);
    assert v1 % 16 == 0;
    JoinSplit(b0, 0, 0);
    assert FirstByte(v0, v1) == b0;
  }

  lemma PairRoundTrip(b0: Byte, b1: Byte)
    ensures DecodeLast(EncodePair(b0, b1)) == Some([b0, b1])
  {
    var q := EncodePair(b0, b1);
    var v0: Sextet := b0 / 4;
    var v1: Sextet := b0 % 4 * 16 + b1 / 16;
    var v2: Sextet := b1 % 16 * 4;
    assert q == [CharOf(v0), CharOf(v1), CharOf(v2), Pad];
    assert q[2] != Pad && q[3] == Pad;
    assert ValueOf(q[0]) == Some(v0);
    assert ValueOf(q[1]) == Some(v1);
    assert ValueOf(q[2]) == Some(v2);
    assert q[..3] == [q[0], q[1], q[2]];
    assert AllValued(q[..3]);
    assert v2 % 4 == 0;
    JoinSplit(b0, b1, 0);
    assert FirstByte(v0, v1) == b0 && SecondByte(v1, v2) == b1;
  }

  /** Decoding undoes encoding, for every byte sequence. */
  lemma {:induction false} DecodeEncode(b: seq<Byte>)
    ensures Decode(Encode(b)) == Some(b)
    decreases |b|
  {
    if |b| == 0 {
    } else if |b| == 1 {
      SingleRoundTrip(b[0]);
      assert Encode(b) == EncodeSingle(b[0]);
      assert b == [b[0]];
    } else if |b| == 2 {
      PairRoundTrip(b[0], b[1]);
      assert Encode(b) == EncodePair(b[0], b[1]);
      assert b == [b[0], b[1]];
    } else {
      var head := EncodeTriple(b[0], b[1], b[2]);
      var rest := Encode(b[3..]);
      TripleRoundTrip(b[0], b[1], b[2]);
      DecodeEncode(b[3..]);
      DecodeCons(head, rest);
      assert Encode(b) == head + rest;
      assert [b[0], b[1], b[2]] + b[3..] == b;
    }
  }

  /** Decoding a full quantum followed by further input. */
  lemma DecodeCons(head: seq<char>, rest: seq<char>)
    requires |head| == 4 && head[3] != Pad
    requires DecodeQuad(head).Some? && Decode(rest).Some?
    ensures Decode(head + rest) == Some(DecodeQuad(head).value + Decode(rest).value)
  {
    var s := head + rest;
    if rest == [] {
      assert s == head;
      assert Decode(rest) == Some([]);
      assert DecodeQuad(head).value + [] == DecodeQuad(head).value;
      assert Decode(s) == DecodeLast(head);
    } else {
      assert |rest| >= 4;
      assert s[..4] == head;
      assert s[4..] == rest;
    }
  }

  lemma QuadCanonical(q: seq<char>)
    requires |q| == 4 && DecodeQuad(q).Some?
    ensures var d := DecodeQuad(q).value; EncodeTriple(d[0], d[1], d[2]) == q
  {
    CharOfValueOf(q[0]); CharOfValueOf(q[1]); CharOfValueOf(q[2]); CharOfValueOf(q[3]);
    SplitJoin(ValueOf(q[0]).value, ValueOf(q[1]).value, ValueOf(q[2]).value, ValueOf(q[3]).value);
  }

  lemma LastCanonical(q: seq<char>)
    requires |q| == 4 && DecodeLast(q).Some?
    ensures Encode(DecodeLast(q).value) == q
  {
    var d := DecodeLast(q).value;
    if q[2] == Pad && q[3] == Pad {
      CharOfValueOf(q[0]); CharOfValueOf(q[1]);
      SplitJoin(ValueOf(q[0]).value, ValueOf(q[1]).value, 0, 0);
      assert Encode(d) == EncodeSingle(d[0]);
    } else if q[3] == Pad {
      CharOfValueOf(q[0]); CharOfValueOf(q[1]); CharOfValueOf(q[2]);
      SplitJoin(ValueOf(q[0]).value, ValueOf(q[1]).value, ValueOf(q[2]).value, 0);
      assert Encode(d) == EncodePair(d[0], d[1]);
    } else {
      QuadCanonical(q);
      assert d[3..] == [];
      assert Encode(d) == EncodeTriple(d[0], d[1], d[2]) + Encode([]);
    }
  }

  /** A successful decoding is canonical: encoding its result gives back the input. */
  lemma {:induction false} EncodeDecode(s: seq<char>)
    requires Decode(s).Some?
    ensures Encode(Decode(s).value) == s
    decreases |s|
  {
    if |s| == 0 {
    } else if |s| == 4 {
      LastCanonical(s);
    } else {
      var head := DecodeQuad(s[..4]).value;
      var tail := Decode(s[4..]).value;
      QuadCanonical(s[..4]);
      EncodeDecode(s[4..]);
      var d := head + tail;
      assert d[..3] == head && d[3..] == tail;
      assert Encode(d) == EncodeTriple(d[0], d[1], d[2]) + Encode(d[3..]);
      assert s == s[..4] + s[4..];
    }
  }
}
