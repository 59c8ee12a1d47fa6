/** The records the generation worker passes between its parts: the job configuration and what the copy and image providers return. */
module Providers {
  import opened Wrappers
  import opened Binary
  import opened Strings

  /** The campaign mode of a generation job. */
  datatype Mode = Quick | Custom | Iterate {
    function Name(): (r: string)
      ensures r in {"quick", "custom", "iterate"}
    {
      match this
      case Quick => "quick"
      case Custom => "custom"
      case Iterate => "iterate"
    }
  }

  /**
   * The provider test mode a job may carry. `Unset` is the absent field;
   * `NoTest` is the explicit value "none".
   */
  datatype TestMode =
    | Unset
    | NoTest
    | ForceCopyPrimaryFailure
    | ForceImagePrimaryFailure
    | ForceCopyFallback
    | ForceImageFallback

  /** The configuration stored with a generation job (the validated request, target already capped). */
  datatype JobConfig = JobConfig(
    campaignId: string,
    mode: Mode,
    targetCount: int,
    headlineVariations: int,
    visualVariations: int,
    messages: seq<string>,
    platforms: seq<string>,
    testMode: TestMode)

  datatype CopyProvider = Anthropic | OpenAICopy | CopyFallback {
    function Name(): string {
      match this
      case Anthropic => "anthropic"
      case OpenAICopy => "openai"
      case CopyFallback => "fallback"
    }
  }

  datatype ImageProvider = OpenAIImage | Google | ImageFallback {
    function Name(): string {
      match this
      case OpenAIImage => "openai"
      case Google => "google"
      case ImageFallback => "fallback"
    }
  }

  /** Headline, body and call to action, tagged with the provider that wrote them. */
  datatype CopyResult = CopyResult(headline: string, body: string, cta: string, provider: CopyProvider)

  /**
   * Image bytes: decoded from a provider's base64 payload, or the UTF-8
   * encoding of an SVG document (the encoder belongs to the runtime).
   */
  datatype ImageBytes = Decoded(bytes: seq<byte>) | Utf8Of(text: string)

  datatype ImageResult = ImageResult(bytes: ImageBytes, contentType: string, provider: ImageProvider)

  /**
   * What an HTTP call to a provider gave back. `NoResponse` is a fetch that
   * rejected or hit the timeout, with the thrown message; a `Response` whose
   * body is `None` is one whose `json()` threw.
   */
  datatype Reply<+P> = NoResponse(reason: string) | Response(status: int, body: Option<P>) {
    /** `response.ok`. */
    predicate IsOk() { Response? && 200 <= status <= 299 }
  }

  /** `!value` for an optional string: absent and empty are both falsy. */
  predicate Falsy(v: Option<string>) {
    v.None? || v.value == ""
  }

  /**
   * The message a provider call throws before it reads the payload: a missing
   * key, a fetch that failed, a status outside 2xx, a body that is not JSON.
   * `None` when the payload is there to read.
   */
  function RequestFailure<P>(key: Option<string>, reply: Reply<P>): (r: Option<string>)
    ensures r.None? <==> !Falsy(key) && reply.IsOk() && reply.body.Some?
    ensures Falsy(key) ==> r == Some("provider_auth_missing")
    ensures !Falsy(key) && reply.Response? && !reply.IsOk()
            ==> r == Some("provider_auth_" + IntToString(reply.status))
  {
    if Falsy(key) then Some("provider_auth_missing")
    else match reply
      case NoResponse(reason) => Some(reason)
      case Response(status, body) =>
        if !reply.IsOk() then Some("provider_auth_" + IntToString(status))
        else if body.None? then Some(UnreadableBody)
        else None
  }

  /** Stands for the runtime's message when `response.json()` throws. */
  const UnreadableBody: string := "SyntaxError"

  /** The index of the first successful call, or `|cs|` when every call failed. */
  function FirstOk<T>(cs: seq<CallOutcome<T>>): (k: nat)
    ensures k <= |cs|
    ensures forall j :: 0 <= j < k ==> cs[j].Fail?
    ensures k < |cs| ==> cs[k].Ok?
  {
    if cs == [] then 0 else if cs[0].Ok? then 0 else 1 + FirstOk(cs[1..])
  }

  /** What a provider ladder produced, and the provider calls it made in order. */
  datatype Attempted<+R, +P> = Attempted(result: R, calls: seq<P>)

  /**
   * A ladder over candidate calls: the first success wins and the calls made
   * are the candidates up to and including it; when every call fails, the
   * fallback, after every call.
   */
  function Ladder<R, P>(cs: seq<CallOutcome<R>>, ps: seq<P>, fallback: R): Attempted<R, P>
    requires |cs| == |ps|
  {
    var k := FirstOk(cs);
    if k < |cs| then Attempted(cs[k].result, ps[..k + 1]) else Attempted(fallback, ps)
  }

  /** A success after only failures is the ladder's result, and stops it. */
  lemma LadderStopsAt<R, P>(cs: seq<CallOutcome<R>>, ps: seq<P>, fallback: R, k: nat)
    requires |cs| == |ps|
    requires k < |cs| && cs[k].Ok?
    requires forall j :: 0 <= j < k ==> cs[j].Fail?
    ensures Ladder(cs, ps, fallback).result == cs[k].result
    ensures Ladder(cs, ps, fallback).calls == ps[..k + 1]
  {
  }

  /** When every call fails, the ladder makes them all and returns the fallback. */
  lemma LadderExhausted<R, P>(cs: seq<CallOutcome<R>>, ps: seq<P>, fallback: R)
    requires |cs| == |ps|
    requires forall j :: 0 <= j < |cs| ==> cs[j].Fail?
    ensures Ladder(cs, ps, fallback) == Attempted(fallback, ps)
  {
  }

  /**
   * The calls a ladder makes are a prefix of its candidates, at least one when
   * there is any; the result is the answer of the last call made, or the
   * fallback after every call failed.
   */
  lemma LadderOutline<R, P>(cs: seq<CallOutcome<R>>, ps: seq<P>, fallback: R)
    requires |cs| == |ps|
    ensures var out := Ladder(cs, ps, fallback);
      && |out.calls| <= |ps| && out.calls == ps[..|out.calls|]
      && (|ps| > 0 ==> |out.calls| >= 1)
      && ((out.calls != [] && cs[|out.calls| - 1].Ok? && out.result == cs[|out.calls| - 1].result)
          || (out.result == fallback && out.calls == ps && forall j :: 0 <= j < |cs| ==> cs[j].Fail?))
  {
    assert ps[..|ps|] == ps;
  }
}
