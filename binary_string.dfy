/**
 * The browser's `btoa` and `atob` as they are used by the live audio client:
 * functions between "binary strings" (strings whose characters all have codes
 * below 256, one per byte) and their base64 text. `btoa` throws an
 * InvalidCharacterError on a character above U+00FF; `atob` throws one on
 * text that is not base64. The base64 itself is the codec of module Base64.
 */
module BinaryString {
  import opened Wrappers
  import Base64

  datatype DomError = InvalidCharacterError | RangeError | NotSupportedError

  /** True when every character of `s` stands for one byte. */
  predicate IsBinary(s: string)
  {
    forall i :: 0 <= i < |s| ==> s[i] as int < 256
  }

  /** The bytes of a binary string, one per character. */
  function BytesOf(s: string): (b: seq<Base64.Byte>)
    requires IsBinary(s)
    ensures |b| == |s| && forall i :: 0 <= i < |s| ==> b[i] == s[i] as int
  {
    seq(|s|, i requires 0 <= i < |s| => s[i] as int)
  }

  /** The binary string of a byte sequence, one character per byte. */
  function CharsOf(b: seq<Base64.Byte>): (s: string)
    ensures |s| == |b| && IsBinary(s)
    ensures forall i :: 0 <= i < |b| ==> s[i] as int == b[i]
  {
    seq(|b|, i requires 0 <= i < |b| => b[i] as char)
  }

  lemma BytesOfCharsOf(b: seq<Base64.Byte>)
    ensures BytesOf(CharsOf(b)) == b
  {
  }

  lemma CharsOfBytesOf(s: string)
    requires IsBinary(s)
    ensures CharsOf(BytesOf(s)) == s
  {
    var t := CharsOf(BytesOf(s));
    assert forall i :: 0 <= i < |s| ==> t[i] == s[i];
  }

  /** `btoa`: the base64 text of a binary string. */
  function Btoa(s: string): (r: Result<string, DomError>)
    ensures r.Success? <==> IsBinary(s)
    ensures r.Success? ==> |r.value| == (|s| + 2) / 3 * 4
  {
    if IsBinary(s) then Success(Base64.Encode(BytesOf(s))) else Failure(InvalidCharacterError)
  }

  /** `atob`: the binary string that base64 text stands for. */
  function Atob(s: string): (r: Result<string, DomError>)
    ensures r.Success? <==> Base64.Decode(s).Some?
    ensures r.Success? ==> IsBinary(r.value)
  {
    match Base64.Decode(s)
    case Some(b) => Success(CharsOf(b))
    case None => Failure(InvalidCharacterError)
  }

  /** `atob` inverts `btoa` on every string `btoa` accepts. */
  lemma AtobBtoa(s: string)
    requires IsBinary(s)
    ensures Btoa(s).Success? && Atob(Btoa(s).value) == Success(s)
  {
    Base64.DecodeEncode(BytesOf(s));
    CharsOfBytesOf(s);
  }

  /** `btoa` inverts `atob`: whatever `atob` accepts, `btoa` gives back unchanged. */
  lemma BtoaAtob(s: string)
    requires Atob(s).Success?
    ensures Btoa(Atob(s).value) == Success(s)
  {
    var b := Base64.Decode(s).value;
    BytesOfCharsOf(b);
    Base64.EncodeDecode(s);
  }
}
