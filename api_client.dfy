/**
 * The small HTTP client the operations scripts share: the message of a
 * failed response, the cookie kept from the session response, the abort
 * signal of a request, and the checks before a client is made. The network
 * calls themselves are abstract.
 */
module ApiClient {
  import opened Wrappers
  import opened Strings

  const DefaultTimeoutMs := 30000

  /** A string field of a JSON object, or a field of another type. */
  datatype FieldValue = StringField(text: string) | OtherField

  /**
   * A response body as `readPayload` gives it: nothing (`null` or another
   * falsy value), a text, an object with or without an `error` field, or a
   * value of another kind.
   */
  datatype Payload = Absent | Text(text: string) | Object(error: Option<FieldValue>) | OtherValue

  /** `toErrorMessage`: a text that is not blank, else an object's `error` text that is not blank, else the fallback. */
  function ToErrorMessage(payload: Payload, fallback: string): (message: string)
    ensures payload.Text? && !IsBlank(payload.text) ==> message == payload.text
    ensures payload.Object? && payload.error.Some? && payload.error.value.StringField? && !IsBlank(payload.error.value.text)
            ==> message == payload.error.value.text
    ensures !(payload.Text? && !IsBlank(payload.text))
            && !(payload.Object? && payload.error.Some? && payload.error.value.StringField? && !IsBlank(payload.error.value.text))
            ==> message == fallback
  {
    match payload
    case Text(text) => if !IsBlank(text) then text else fallback
    case Object(error) =>
      if error.Some? && error.value.StringField? && !IsBlank(error.value.text) then error.value.text else fallback
    case _ => fallback
  }

  /** The message shown is never blank when the fallback is not. */
  lemma ErrorMessageNotBlank(payload: Payload, fallback: string)
    requires !IsBlank(fallback)
    ensures !IsBlank(ToErrorMessage(payload, fallback))
  {
  }

  /** The message of a request that came back with a failure status. */
  function RequestErrorMessage(status: int, payload: Payload): (message: string)
    ensures payload == Absent ==> message == "Request failed with status " + IntToString(status)
  {
    ToErrorMessage(payload, "Request failed with status " + IntToString(status))
  }

  /** The first part of a text cut at a separator holds no separator and begins the text. */
  lemma {:induction false} SplitHead(s: string, c: char)
    ensures c !in Split(s, c)[0] && IsPrefix(Split(s, c)[0], s)
  {
    if s != [] {
      SplitHead(s[1..], c);
    }
  }

  /** A character absent from a text is absent from what trimming leaves of it. */
  lemma TrimKeepsOut(s: string, c: char)
    requires c !in s
    ensures c !in Trim(s)
  {
    var start := TrimStart(s);
    SliceKeepsOut(s, |s| - |start|, |s|, c);
    SliceKeepsOut(start, 0, |TrimEnd(start)|, c);
  }

  /** A character absent from a text is absent from every slice of it. */
  lemma SliceKeepsOut(s: string, i: nat, j: nat, c: char)
    requires i <= j <= |s| && c !in s
    ensures c !in s[i..j]
  {
  }

  /** A text that neither begins nor ends with whitespace is its own trim. */
  lemma TrimmedAlready(s: string)
    requires s == [] || (!IsWhitespace(s[0]) && !IsWhitespace(s[|s| - 1]))
    ensures Trim(s) == s
  {
  }

  /** `toCookieHeader`: the trimmed part of a `Set-Cookie` header before its first `;`, unless that is blank or there is no header. */
  function ToCookieHeader(setCookieHeader: Option<string>): (cookie: Option<string>)
    ensures setCookieHeader == None || setCookieHeader == Some("") ==> cookie == None
    ensures cookie.Some? ==> cookie.value != "" && ';' !in cookie.value
    ensures cookie.Some? ==> !IsWhitespace(cookie.value[0]) && !IsWhitespace(cookie.value[|cookie.value| - 1])
    ensures setCookieHeader.Some? && setCookieHeader.value != "" ==>
      (cookie.Some? <==> !IsBlank(Split(setCookieHeader.value, ';')[0]))
  {
    if setCookieHeader.None? || setCookieHeader.value == "" then None
    else
      var cookiePair := Split(setCookieHeader.value, ';')[0];
      SplitHead(setCookieHeader.value, ';');
      TrimKeepsOut(cookiePair, ';');
      if Trim(cookiePair) != [] then Some(Trim(cookiePair)) else None
  }

  /** A header `name=value; attributes` gives back `name=value` when that pair holds no `;` and no surrounding whitespace. */
  lemma CookieOfHeader(pair: string, attributes: string)
    requires pair != [] && ';' !in pair && !IsWhitespace(pair[0]) && !IsWhitespace(pair[|pair| - 1])
    ensures ToCookieHeader(Some(pair + ";" + attributes)) == Some(pair)
  {
    SplitAtFirst(pair, ';', attributes);
    TrimmedAlready(pair);
  }

  /** The abort signal a request runs under: the caller's own, or one of a new controller that a timer aborts. */
  datatype Signal = CallerSignal(id: nat) | ControllerSignal

  /** What `cleanup` does once the request settles. */
  datatype Cleanup = NoCleanup | ClearTimer(timeoutMs: int)

  datatype Guard = Guard(signal: Signal, cleanup: Cleanup)

  /** `withTimeout`: a caller's signal is used as it is, with nothing to clean up; otherwise a timer of `timeoutMs` is armed and cleared afterwards. */
  function WithTimeout(signal: Option<nat>, timeoutMs: int): (guard: Guard)
    ensures signal.Some? ==> guard == Guard(CallerSignal(signal.value), NoCleanup)
    ensures signal.None? ==> guard == Guard(ControllerSignal, ClearTimer(timeoutMs))
    ensures guard.cleanup == NoCleanup <==> signal.Some?
  {
    if signal.Some? then Guard(CallerSignal(signal.value), NoCleanup) else Guard(ControllerSignal, ClearTimer(timeoutMs))
  }

  /** `init.timeoutMs ?? DEFAULT_TIMEOUT_MS`. */
  function RequestTimeout(timeoutMs: Option<int>): (ms: int)
    ensures timeoutMs.None? ==> ms == DefaultTimeoutMs
    ensures timeoutMs.Some? ==> ms == timeoutMs.value
  {
    timeoutMs.GetOr(DefaultTimeoutMs)
  }

  /** `.replace(/\/$/, '')`: one trailing slash removed. */
  function StripTrailingSlash(url: string): (r: string)
    ensures IsPrefix(r, url) && |url| - 1 <= |r| <= |url|
    ensures |r| < |url| <==> url != [] && url[|url| - 1] == '/'
  {
    if url != [] && url[|url| - 1] == '/' then url[..|url| - 1] else url
  }

  /** What the session request came back with. */
  datatype SessionResponse = SessionResponse(ok: bool, payload: Payload, setCookie: Option<string>)

  /** A client made: the base URL requests go to and the cookie they carry. */
  datatype Client = Client(apiBaseUrl: string, cookieHeader: string)

  /** The checks `createAuthedClient` makes before the session request. */
  function ClientOptionsError(apiBaseUrl: Option<string>, passphrase: Option<string>): (error: Option<string>)
    ensures error == None <==> StripTrailingSlash(apiBaseUrl.GetOr("")) != "" && passphrase.Some? && passphrase.value != ""
    ensures StripTrailingSlash(apiBaseUrl.GetOr("")) == "" ==> error == Some("API base URL is required.")
  {
    if StripTrailingSlash(apiBaseUrl.GetOr("")) == "" then Some("API base URL is required.")
    else if passphrase.None? || passphrase.value == "" then Some("Passphrase is required.")
    else None
  }

  /**
   * `createAuthedClient`: the option checks, then the session request; a
   * refused session fails with the message of its body, and a session without
   * a cookie fails too. `session` is what the session request returns.
   */
  function CreateAuthedClient(apiBaseUrl: Option<string>, passphrase: Option<string>, session: SessionResponse): (r: CallOutcome<Client>)
    ensures ClientOptionsError(apiBaseUrl, passphrase).Some? ==> r == Fail(ClientOptionsError(apiBaseUrl, passphrase).value)
    ensures ClientOptionsError(apiBaseUrl, passphrase).None? && !session.ok ==>
      r == Fail(ToErrorMessage(session.payload, "Authentication failed while creating session."))
    ensures r.Ok? <==> ClientOptionsError(apiBaseUrl, passphrase).None? && session.ok && ToCookieHeader(session.setCookie).Some?
    ensures r.Ok? ==> r.result == Client(StripTrailingSlash(apiBaseUrl.GetOr("")), ToCookieHeader(session.setCookie).value)
  {
    var optionsError := ClientOptionsError(apiBaseUrl, passphrase);
    if optionsError.Some? then Fail(optionsError.value)
    else if !session.ok then Fail(ToErrorMessage(session.payload, "Authentication failed while creating session."))
    else match ToCookieHeader(session.setCookie)
      case None => Fail("Session cookie was not returned by the API.")
      case Some(cookie) => Ok(Client(StripTrailingSlash(apiBaseUrl.GetOr("")), cookie))
  }

  /** A base URL of just `/` is refused as empty. */
  lemma SlashOnlyBaseRefused(passphrase: Option<string>, session: SessionResponse)
    ensures CreateAuthedClient(Some("/"), passphrase, session) == Fail("API base URL is required.")
  {
  }

  /** A session whose cookie header starts with a clean `name=value` pair yields a client carrying exactly that pair. */
  lemma SessionCookieKept(apiBaseUrl: string, passphrase: string, pair: string, attributes: string, payload: Payload)
    requires StripTrailingSlash(apiBaseUrl) != "" && passphrase != ""
    requires pair != [] && ';' !in pair && !IsWhitespace(pair[0]) && !IsWhitespace(pair[|pair| - 1])
    ensures CreateAuthedClient(Some(apiBaseUrl), Some(passphrase), SessionResponse(true, payload, Some(pair + ";" + attributes)))
            == Ok(Client(StripTrailingSlash(apiBaseUrl), pair))
  {
    CookieOfHeader(pair, attributes);
  }
}
