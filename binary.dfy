/** Byte arrays and "binary strings" (one character per byte), as `atob`, `btoa` and `Uint8Array` use them. */
module Binary {

  /** One element of a `Uint8Array`. */
  newtype byte = b: int | 0 <= b < 256

  /** Storing a character code into a `Uint8Array` slot keeps its low eight bits. */
  function ByteOfCharCode(c: char): byte {
    (c as int % 256) as byte
  }

  /** The bytes of a binary string, character by character: `bytes[k] = binary.charCodeAt(k)`. */
  function CharCodesToBytes(binary: string): (r: seq<byte>)
    ensures |r| == |binary|
  {
    seq(|binary|, k requires 0 <= k < |binary| => ByteOfCharCode(binary[k]))
  }

  /** `String.fromCharCode(...bytes)`. */
  function BytesToBinary(bytes: seq<byte>): (r: string)
    ensures |r| == |bytes|
    ensures forall k :: 0 <= k < |r| ==> r[k] as int < 256
  {
    seq(|bytes|, k requires 0 <= k < |bytes| => bytes[k] as char)
  }

  /** A binary string has only character codes below 256. */
  predicate IsBinaryString(s: string) {
    forall k :: 0 <= k < |s| ==> s[k] as int < 256
  }

  /** Turning bytes into a binary string and back gives the bytes. */
  lemma BytesRoundTrip(bytes: seq<byte>)
    ensures CharCodesToBytes(BytesToBinary(bytes)) == bytes
  {
    var s := BytesToBinary(bytes);
    forall k | 0 <= k < |bytes|
      ensures CharCodesToBytes(s)[k] == bytes[k]
    {
      assert s[k] as int == bytes[k] as int;
    }
  }

  /** For a binary string the byte conversion loses nothing. */
  lemma BinaryRoundTrip(s: string)
    requires IsBinaryString(s)
    ensures BytesToBinary(CharCodesToBytes(s)) == s
  {
    var b := CharCodesToBytes(s);
    forall k | 0 <= k < |s|
      ensures BytesToBinary(b)[k] == s[k]
    {
      assert b[k] as int == s[k] as int;
    }
  }
}
