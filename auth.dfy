/**
 * Signed session tokens: base64url encoding (section 5 of RFC 4648, with the
 * padding of section 3.2 dropped and restored), and tokens of the form
 * `payload.signature` where the signature is the base64url HMAC of the
 * encoded payload.
 */
module Auth {
  import opened Wrappers
  import opened Strings
  import opened Binary

  const SessionCookie: string := "adpower_session"

  // ---------------------------------------------------------------------------
  // base64url
  // ---------------------------------------------------------------------------

  /** A character of the standard base64 alphabet (section 4 of RFC 4648). */
  predicate IsBase64Char(c: char) {
    ('A' <= c <= 'Z') || ('a' <= c <= 'z') || ('0' <= c <= '9') || c == '+' || c == '/'
  }

  /** `btoa` output: alphabet characters, then at most two `=`, in a length that is a multiple of four. */
  predicate IsStandardBase64(s: string) {
    var body := StripTrailing(s, '=');
    && |s| % 4 == 0
    && |s| - |body| <= 2
    && forall k :: 0 <= k < |body| ==> IsBase64Char(body[k])
  }

  /** The two global replacements of `toBase64Url`: `+` to `-` and `/` to `_`. */
  function Swap(base64: string): (r: string)
    ensures |r| == |base64|
    ensures '+' !in r && '/' !in r
  {
    var r := ReplaceChar(ReplaceChar(base64, '+', '-'), '/', '_');
    assert forall k :: 0 <= k < |r| ==> r[k] != '+' && r[k] != '/';
    r
  }

  /** The text part of `toBase64Url`: the replacements, then trailing `=` removed. */
  function UrlSafe(base64: string): (r: string)
    ensures '+' !in r && '/' !in r
    ensures r == [] || r[|r| - 1] != '='
  {
    StripTrailing(Swap(base64), '=')
  }

  /** `toBase64Url(bytes)`; `btoa` is a parameter. */
  function ToBase64Url(bytes: seq<byte>, btoa: string -> string): (text: string)
    ensures '+' !in text && '/' !in text
    ensures text == [] || text[|text| - 1] != '='
  {
    UrlSafe(btoa(BytesToBinary(bytes)))
  }

  /** The first step of `fromBase64Url`: `-` back to `+`, `_` back to `/`. */
  function Normalize(value: string): (r: string)
    ensures |r| == |value|
    ensures '-' !in r && '_' !in r
  {
    var r := ReplaceChar(ReplaceChar(value, '-', '+'), '_', '/');
    assert forall k :: 0 <= k < |r| ==> r[k] != '-' && r[k] != '_';
    r
  }

  /** `normalized + '='.repeat((4 - normalized.length % 4) % 4)`: at most three `=`, to a multiple of four. */
  function Pad(normalized: string): (r: string)
    ensures |r| % 4 == 0 && |normalized| <= |r| < |normalized| + 4
    ensures IsPrefix(normalized, r)
    ensures forall k :: |normalized| <= k < |r| ==> r[k] == '='
  {
    normalized + Repeat('=', (4 - |normalized| % 4) % 4)
  }

  /** What `fromBase64Url` returns: the bytes of `atob` of the padded text; `None` where `atob` throws. */
  function DecodeBase64Url(value: string, atob: string -> Option<string>): (r: Option<seq<byte>>)
    ensures r.Some? <==> atob(Pad(Normalize(value))).Some?
    ensures r.Some? ==> |r.value| == |atob(Pad(Normalize(value))).value|
  {
    match atob(Pad(Normalize(value)))
    case None => None
    case Some(binary) => Some(CharCodesToBytes(binary))
  }

  /** `fromBase64Url`: normalises, pads, decodes, and fills a byte array one character code at a time. */
  method FromBase64Url(value: string, atob: string -> Option<string>) returns (r: Option<seq<byte>>)
    ensures r == DecodeBase64Url(value, atob)
  {
    var normalized := ReplaceChar(ReplaceChar(value, '-', '+'), '_', '/');
    var padded := normalized + Repeat('=', (4 - |normalized| % 4) % 4);
    var decoded := atob(padded);
    if decoded.None? {
      return None;
    }
    var binary := decoded.value;
    var bytes := new byte[|binary|];
    for index := 0 to |binary|
      invariant forall k :: 0 <= k < index ==> bytes[k] == ByteOfCharCode(binary[k])
    {
      bytes[index] := ByteOfCharCode(binary[index]);
    }
    assert bytes[..] == CharCodesToBytes(binary);
    return Some(bytes[..]);
  }

  /** Stripping a run of `c` that starts at `m` and is preceded by another character leaves the first `m` characters. */
  lemma {:induction false} StripTrailingAt(s: string, c: char, m: nat)
    requires m <= |s|
    requires forall k :: m <= k < |s| ==> s[k] == c
    requires m == 0 || s[m - 1] != c
    ensures StripTrailing(s, c) == s[..m]
    decreases |s|
  {
    if |s| > m {
      StripTrailingAt(s[..|s| - 1], c, m);
      assert s[..|s| - 1][..m] == s[..m];
    }
  }

  /** The url-safe form of a standard base64 text is its unpadded part with the two replacements. */
  lemma UrlSafeOfStandard(s: string)
    requires IsStandardBase64(s)
    ensures UrlSafe(s) == Swap(StripTrailing(s, '='))
  {
    var body := StripTrailing(s, '=');
    var m := |body|;
    var swapped := Swap(s);
    forall k | 0 <= k < |s|
      ensures swapped[k] == '=' <==> s[k] == '='
    {
      SwapAt(s, k);
    }
    assert m == 0 || s[m - 1] == body[m - 1];
    StripTrailingAt(swapped, '=', m);
    forall k | 0 <= k < m
      ensures swapped[k] == Swap(body)[k]
    {
      SwapAt(s, k);
      SwapAt(body, k);
      assert s[k] == body[k];
    }
    assert swapped[..m] == Swap(body);
  }

  /** One character of `Swap`. */
  lemma SwapAt(s: string, k: nat)
    requires k < |s|
    ensures Swap(s)[k] == if s[k] == '+' then '-' else if s[k] == '/' then '_' else s[k]
  {
    assert ReplaceChar(s, '+', '-')[k] == if s[k] == '+' then '-' else s[k];
  }


  /** Normalising undoes the replacements on alphabet characters. */
  lemma NormalizeUndoesSwap(t: string)
    requires forall k :: 0 <= k < |t| ==> IsBase64Char(t[k])
    ensures Normalize(Swap(t)) == t
  {
    var n := Normalize(Swap(t));
    forall k | 0 <= k < |t|
      ensures n[k] == t[k]
    {
      assert IsBase64Char(t[k]);
    }
  }

  /** Padding the unpadded part of a standard base64 text restores its padding. */
  lemma PadRestores(s: string)
    requires IsStandardBase64(s)
    ensures Pad(StripTrailing(s, '=')) == s
  {
    var body := StripTrailing(s, '=');
    var m := |body|;
    var p := |s| - m;
    assert (4 - m % 4) % 4 == p;
    assert s == body + Repeat('=', p);
  }

  /**
   * The character-level round trip: normalising and padding the url-safe
   * form of a standard base64 text gives the text back.
   */
  lemma UrlSafeRoundTrip(s: string)
    requires IsStandardBase64(s)
    ensures Pad(Normalize(UrlSafe(s))) == s
  {
    UrlSafeOfStandard(s);
    NormalizeUndoesSwap(StripTrailing(s, '='));
    PadRestores(s);
  }

  /**
   * A standard base64 text of a non-empty input keeps at least two
   * characters once its padding is dropped, and holds no `.`.
   */
  lemma UrlSafeShape(s: string)
    requires IsStandardBase64(s) && |s| > 0
    ensures |UrlSafe(s)| >= 2 && '.' !in UrlSafe(s)
  {
    UrlSafeOfStandard(s);
    var body := StripTrailing(s, '=');
    forall k | 0 <= k < |body|
      ensures Swap(body)[k] != '.'
    {
      assert IsBase64Char(body[k]);
    }
  }

  // ---------------------------------------------------------------------------
  // Session tokens
  // ---------------------------------------------------------------------------

  /**
   * The runtime pieces a token passes through, as functions: `btoa`/`atob`,
   * UTF-8 encoding and decoding, the JSON text of `{ sid, iat }` and its
   * parse, and the HMAC-SHA-256 digest under the secret. `parseSid` gives
   * `None` where `JSON.parse` throws and `Some(None)` for a payload without
   * a `sid`.
   */
  datatype Runtime = Runtime(
    btoa: string -> string,
    atob: string -> Option<string>,
    encodeUtf8: string -> seq<byte>,
    decodeUtf8: seq<byte> -> string,
    stringifySession: (string, int) -> string,
    parseSid: string -> Option<Option<string>>,
    hmac: string -> seq<byte>)

  /**
   * What the round trip relies on: `btoa` gives standard base64 that `atob`
   * reads back, a non-empty input gives non-empty output, UTF-8 decoding
   * undoes encoding, the payload JSON is non-empty and parses back to its
   * `sid`, and the digest has 32 bytes.
   */
  ghost predicate Faithful(rt: Runtime) {
    && (forall bin :: IsBinaryString(bin) ==> IsStandardBase64(rt.btoa(bin)) && rt.atob(rt.btoa(bin)) == Some(bin))
    && (forall bin :: |bin| > 0 ==> |rt.btoa(bin)| > 0)
    && (forall t :: rt.decodeUtf8(rt.encodeUtf8(t)) == t)
    && (forall t :: |t| > 0 ==> |rt.encodeUtf8(t)| > 0)
    && (forall sid, iat :: |rt.stringifySession(sid, iat)| > 0)
    && (forall sid, iat :: rt.parseSid(rt.stringifySession(sid, iat)) == Some(Some(sid)))
    && (forall v :: |rt.hmac(v)| == 32)
  }

  /** `sign(value, secret)`: the base64url text of the digest. */
  function Sign(value: string, rt: Runtime): (signature: string)
    ensures '+' !in signature && '/' !in signature
    ensures signature == [] || signature[|signature| - 1] != '='
  {
    ToBase64Url(rt.hmac(value), rt.btoa)
  }

  /** The encoded payload of a session created at `iat`. */
  function EncodedPayload(sessionId: string, iat: int, rt: Runtime): string {
    ToBase64Url(rt.encodeUtf8(rt.stringifySession(sessionId, iat)), rt.btoa)
  }

  /** `createSignedSessionToken`: the encoded payload, a dot, and its signature; the clock reading is a parameter. */
  function CreateSignedSessionToken(sessionId: string, iat: int, rt: Runtime): (token: string)
    ensures var payload := EncodedPayload(sessionId, iat, rt);
      IsPrefix(payload + ".", token) && token[|payload| + 1..] == Sign(payload, rt)
  {
    var payload := EncodedPayload(sessionId, iat, rt);
    var token := payload + "." + Sign(payload, rt);
    assert token[..|payload + "."|] == payload + ".";
    token
  }

  /** `verifySignedSessionToken`: the session id, or `None` for any token it rejects. */
  function VerifySignedSessionToken(token: string, rt: Runtime): (r: Option<string>)
    ensures var parts := Split(token, '.');
      (|parts| < 2 || parts[0] == "" || parts[1] == "") ==> r == None
    ensures var parts := Split(token, '.');
      (|parts| >= 2 && Sign(parts[0], rt) != parts[1]) ==> r == None
  {
    var parts := Split(token, '.');
    var payloadEncoded := parts[0];
    if |parts| < 2 || payloadEncoded == "" || parts[1] == "" then None
    else if Sign(payloadEncoded, rt) != parts[1] then None
    else
      match DecodeBase64Url(payloadEncoded, rt.atob)
      case None => None
      case Some(bytes) =>
        match rt.parseSid(rt.decodeUtf8(bytes))
        case None => None
        case Some(sid) => sid
  }

  /** The verifier looks at nothing past the second dot. */
  lemma OnlyFirstTwoSegments(t1: string, t2: string, rt: Runtime)
    requires |Split(t1, '.')| >= 2 && |Split(t2, '.')| >= 2
    requires Split(t1, '.')[..2] == Split(t2, '.')[..2]
    ensures VerifySignedSessionToken(t1, rt) == VerifySignedSessionToken(t2, rt)
  {
    assert Split(t1, '.')[0] == Split(t1, '.')[..2][0];
    assert Split(t2, '.')[0] == Split(t2, '.')[..2][0];
    assert Split(t1, '.')[1] == Split(t1, '.')[..2][1];
    assert Split(t2, '.')[1] == Split(t2, '.')[..2][1];
  }

  /** Two dot-free segments joined by a dot split back into those two. */
  lemma SplitTwo(p: string, q: string)
    requires '.' !in p && '.' !in q
    ensures Split(p + "." + q, '.') == [p, q]
  {
    SplitAtFirst(p, '.', q);
    SplitWithout(q, '.');
  }

  /** The base64url text of non-empty bytes is non-empty, dot-free, and decodes back to them. */
  lemma ToBase64UrlRoundTrip(bytes: seq<byte>, rt: Runtime)
    requires Faithful(rt) && |bytes| > 0
    ensures var e := ToBase64Url(bytes, rt.btoa);
      e != "" && '.' !in e && DecodeBase64Url(e, rt.atob) == Some(bytes)
  {
    var bin := BytesToBinary(bytes);
    assert IsBinaryString(bin);
    var std := rt.btoa(bin);
    UrlSafeShape(std);
    UrlSafeRoundTrip(std);
    BytesRoundTrip(bytes);
  }

  /** A token this code signed verifies to the session it was created for. */
  lemma VerifyCreated(sessionId: string, iat: int, rt: Runtime)
    requires Faithful(rt)
    ensures VerifySignedSessionToken(CreateSignedSessionToken(sessionId, iat, rt), rt) == Some(sessionId)
  {
    var json := rt.stringifySession(sessionId, iat);
    var utf8 := rt.encodeUtf8(json);
    ToBase64UrlRoundTrip(utf8, rt);
    var payload := EncodedPayload(sessionId, iat, rt);
    ToBase64UrlRoundTrip(rt.hmac(payload), rt);
    SplitTwo(payload, Sign(payload, rt));
  }

  /** A forged signature is refused, whatever the payload. */
  lemma ForgedSignatureRefused(payload: string, signature: string, rt: Runtime)
    requires '.' !in payload && '.' !in signature
    requires signature != Sign(payload, rt)
    ensures VerifySignedSessionToken(payload + "." + signature, rt) == None
  {
    SplitTwo(payload, signature);
  }
}
