/**
 * The image for one variant: a prompt, up to two calls to the primary
 * provider (OpenAI images), one to the secondary (Google), and an SVG
 * placeholder when both fail.
 */
module ImageAdapter {
  import opened Wrappers
  import opened Strings
  import opened Binary
  import opened Providers

  const InvalidResponse: string := "provider_response_invalid"
  const Png: string := "image/png"
  const Svg: string := "image/svg+xml"

  /** Stands for the runtime's message when `atob` rejects its input. */
  const InvalidBase64: string := "InvalidCharacterError"

  /** How many characters of the cleaned prompt the placeholder shows. */
  const SvgPromptLength: nat := 56

  /** The image prompt: four sentences joined by spaces. */
  function BuildPrompt(config: JobConfig, variantIndex: nat): (p: string)
    ensures Contains(p, "Variant index " + NatToString(variantIndex + 1) + ".")
    ensures Contains(p, "Campaign mode: " + config.mode.Name() + ".")
    ensures Contains(p, "Platform targets: " + Join(config.platforms, ", ") + ".")
  {
    var parts := [
      "Swiss precision ad creative, minimal, monochrome with lime accent.",
      "Variant index " + NatToString(variantIndex + 1) + ".",
      "Campaign mode: " + config.mode.Name() + ".",
      "Platform targets: " + Join(config.platforms, ", ") + "."];
    JoinContainsPart(parts, " ", 1);
    JoinContainsPart(parts, " ", 2);
    JoinContainsPart(parts, " ", 3);
    Join(parts, " ")
  }

  /** The bytes of a base64 payload: `atob`, then one byte per character; `None` when `atob` throws. */
  function DecodeBase64(base64: string, atob: string -> Option<string>): (r: Option<seq<byte>>)
    ensures r.Some? <==> atob(base64).Some?
    ensures r.Some? ==> |r.value| == |atob(base64).value|
  {
    match atob(base64)
    case None => None
    case Some(binary) => Some(CharCodesToBytes(binary))
  }

  /** `base64ToBytes`: fills a fresh byte array one character code at a time. */
  method Base64ToBytes(base64: string, atob: string -> Option<string>) returns (r: Option<seq<byte>>)
    ensures r == DecodeBase64(base64, atob)
  {
    var decoded := atob(base64);
    if decoded.None? {
      return None;
    }
    var binary := decoded.value;
    var bytes := new byte[|binary|];
    var index := 0;
    while index < |binary|
      invariant 0 <= index <= |binary|
      invariant forall k :: 0 <= k < index ==> bytes[k] == ByteOfCharCode(binary[k])
    {
      bytes[index] := ByteOfCharCode(binary[index]);
      index := index + 1;
    }
    assert bytes[..] == CharCodesToBytes(binary);
    return Some(bytes[..]);
  }

  /** The OpenAI images reply: `data[0].b64_json`. */
  datatype ImageDatum = ImageDatum(b64Json: Option<string>)
  datatype OpenAIImagePayload = OpenAIImagePayload(data: Option<seq<ImageDatum>>)

  /** The Gemini reply; a candidate's `None` parts covers missing content or parts. */
  datatype InlineData = InlineData(data: Option<string>, mimeType: Option<string>)
  datatype Part = Part(inlineData: Option<InlineData>)
  datatype Candidate = Candidate(parts: Option<seq<Part>>)
  datatype GooglePayload = GooglePayload(candidates: Option<seq<Candidate>>)

  /** The inline data of the first part that carries non-empty data. */
  function FirstInlineData(parts: seq<Part>): (d: Option<InlineData>)
    ensures d.Some? ==> !Falsy(d.value.data)
    ensures d.Some? ==> exists k :: 0 <= k < |parts| && parts[k].inlineData == d
    ensures (forall k :: 0 <= k < |parts| ==> parts[k].inlineData.None? || Falsy(parts[k].inlineData.value.data)) ==> d.None?
  {
    if parts == [] then None
    else if parts[0].inlineData.Some? && !Falsy(parts[0].inlineData.value.data) then parts[0].inlineData
    else FirstInlineData(parts[1..])
  }

  /** An image decoded from a base64 payload, or why it could not be. */
  function ImageFromBase64(base64: Option<string>, contentType: string, provider: ImageProvider,
                           atob: string -> Option<string>): (r: CallOutcome<ImageResult>)
    ensures Falsy(base64) ==> r == Fail(InvalidResponse)
    ensures !Falsy(base64) && atob(base64.value).None? ==> r == Fail(InvalidBase64)
    ensures !Falsy(base64) && atob(base64.value).Some?
            ==> r == Ok(ImageResult(Decoded(CharCodesToBytes(atob(base64.value).value)), contentType, provider))
  {
    if Falsy(base64) then Fail(InvalidResponse)
    else match DecodeBase64(base64.value, atob)
      case None => Fail(InvalidBase64)
      case Some(bytes) => Ok(ImageResult(Decoded(bytes), contentType, provider))
  }

  /** One call to OpenAI images: a PNG decoded from the first datum. */
  function CallOpenAI(key: Option<string>, reply: Reply<OpenAIImagePayload>, atob: string -> Option<string>): (r: CallOutcome<ImageResult>)
    ensures RequestFailure(key, reply).Some? ==> r == Fail(RequestFailure(key, reply).value)
    ensures r.Ok? ==> !Falsy(key) && reply.IsOk() && r.result.provider == OpenAIImage
                      && r.result.contentType == Png && r.result.bytes.Decoded?
  {
    match RequestFailure(key, reply)
    case Some(reason) => Fail(reason)
    case None =>
      var data := reply.body.value.data;
      ImageFromBase64(if data.None? || data.value == [] then None else data.value[0].b64Json, Png, OpenAIImage, atob)
  }

  /** One call to Gemini: the first part with inline data, PNG unless it names its type. */
  function CallGoogle(key: Option<string>, reply: Reply<GooglePayload>, atob: string -> Option<string>): (r: CallOutcome<ImageResult>)
    ensures RequestFailure(key, reply).Some? ==> r == Fail(RequestFailure(key, reply).value)
    ensures r.Ok? ==> !Falsy(key) && reply.IsOk() && r.result.provider == Google && r.result.bytes.Decoded?
  {
    match RequestFailure(key, reply)
    case Some(reason) => Fail(reason)
    case None =>
      var candidates := reply.body.value.candidates;
      var parts := if candidates.None? || candidates.value == [] then None else candidates.value[0].parts;
      var inline := if parts.None? then None else FirstInlineData(parts.value);
      if inline.None? then Fail(InvalidResponse)
      else ImageFromBase64(inline.value.data, inline.value.mimeType.GetOr(Png), Google, atob)
  }

  /** A Gemini reply with decodable inline data gives that image, typed by the part's `mimeType` or PNG when it names none. */
  lemma GoogleImageTyped(key: Option<string>, reply: Reply<GooglePayload>, atob: string -> Option<string>)
    requires RequestFailure(key, reply).None?
    requires var cs := reply.body.value.candidates;
      cs.Some? && cs.value != [] && cs.value[0].parts.Some? && FirstInlineData(cs.value[0].parts.value).Some?
      && atob(FirstInlineData(cs.value[0].parts.value).value.data.value).Some?
    ensures var d := FirstInlineData(reply.body.value.candidates.value[0].parts.value).value;
      CallGoogle(key, reply, atob)
      == Ok(ImageResult(Decoded(CharCodesToBytes(atob(d.data.value).value)), d.mimeType.GetOr(Png), Google))
  {
  }

  /** The placeholder's markup before the embedded prompt text. */
  const SvgHead: string :=
    "\n"
    + "    <svg xmlns=\"http://www.w3.org/2000/svg\" width=\"1024\" height=\"1024\">\n"
    + "      <rect width=\"1024\" height=\"1024\" fill=\"#ffffff\" />\n"
    + "      <rect x=\"60\" y=\"60\" width=\"904\" height=\"904\" fill=\"#f7f7f7\" stroke=\"#121212\" stroke-width=\"2\" />\n"
    + "      <rect x=\"100\" y=\"100\" width=\"220\" height=\"36\" fill=\"#d4ff00\" stroke=\"#121212\" stroke-width=\"2\" />\n"
    + "      <text x=\"110\" y=\"125\" font-family=\"Inter, sans-serif\" font-size=\"18\" fill=\"#121212\">AI GENERATED</text>\n"
    + "      <text x=\"100\" y=\"220\" font-family=\"Inter, sans-serif\" font-size=\"42\" fill=\"#121212\">\n"
    + "        Swiss Precision Variant\n"
    + "      </text>\n"
    + "      <text x=\"100\" y=\"280\" font-family=\"Inter, sans-serif\" font-size=\"20\" fill=\"#515151\">\n"
    + "        "

  /** The placeholder's markup after the embedded prompt text. */
  const SvgTail: string :=
    "\n"
    + "      </text>\n"
    + "    </svg>\n"
    + "  "

  /**
   * The prompt text the placeholder shows: markup characters removed, then
   * the first 56 UTF-16 code units, as the document's encoder sees them.
   */
  function SafePromptText(prompt: string): (t: string)
    ensures Utf16Length(t) <= SvgPromptLength
    ensures forall k :: 0 <= k < |t| ==> t[k] !in {'<', '>', '&'}
    ensures Utf16Length(RemoveChars(prompt, {'<', '>', '&'})) <= SvgPromptLength ==> t == RemoveChars(prompt, {'<', '>', '&'})
  {
    var t := Utf16Prefix(RemoveChars(prompt, {'<', '>', '&'}), SvgPromptLength);
    assert forall k :: 0 <= k < |t| ==> t[k] in t;
    t
  }

  /** A prompt within the Basic Multilingual Plane shows its first 56 characters once the markup is gone. */
  lemma SafePromptTextOfBmp(prompt: string)
    requires forall k :: 0 <= k < |prompt| ==> prompt[k] as int < 0x1_0000
    ensures var safe := RemoveChars(prompt, {'<', '>', '&'});
      SafePromptText(prompt) == if |safe| <= SvgPromptLength then safe else safe[..SvgPromptLength]
  {
    var safe := RemoveChars(prompt, {'<', '>', '&'});
    assert forall k :: 0 <= k < |safe| ==> safe[k] in prompt;
    Utf16PrefixOfBmp(safe, SvgPromptLength);
  }

  /** A character outside the Basic Multilingual Plane that the cut splits is shown as U+FFFD. */
  lemma SplitPairShownReplaced(prompt: string, c: char)
    requires |prompt| == SvgPromptLength - 1 && c as int >= 0x1_0000
    requires forall k :: 0 <= k < |prompt| ==> prompt[k] as int < 0x1_0000 && prompt[k] !in {'<', '>', '&'}
    ensures SafePromptText(prompt + [c]) == prompt + [ReplacementCharacter]
  {
    RemoveNothing(prompt + [c], {'<', '>', '&'});
    Utf16PrefixSplitsPair(prompt, c);
  }

  function SvgDocument(text: string): string {
    SvgHead + text + SvgTail
  }

  /** The placeholder image: the SVG document, UTF-8 encoded. */
  function FallbackSvg(prompt: string): (r: ImageResult)
    ensures r.provider == ImageFallback && r.contentType == Svg
    ensures r.bytes == Utf8Of(SvgDocument(SafePromptText(prompt)))
    ensures Contains(r.bytes.text, SafePromptText(prompt))
  {
    ContainsInfix(SvgHead, SafePromptText(prompt), SvgTail);
    ImageResult(Utf8Of(SvgDocument(SafePromptText(prompt))), Svg, ImageFallback)
  }

  /**
   * The prompt cannot inject markup: every markup character of the
   * placeholder lies in its fixed head or tail, whatever the prompt.
   */
  lemma FallbackSvgMarkupFixed(prompt: string)
    ensures var doc := SvgDocument(SafePromptText(prompt));
      forall k :: |SvgHead| <= k < |SvgHead| + |SafePromptText(prompt)| ==> doc[k] !in {'<', '>', '&'}
  {
    var t := SafePromptText(prompt);
    var doc := SvgDocument(t);
    forall k | |SvgHead| <= k < |SvgHead| + |t|
      ensures doc[k] !in {'<', '>', '&'}
    {
      assert doc[k] == t[k - |SvgHead|];
    }
  }

  /** What the image providers answer for one variant. */
  datatype ImageWorld = ImageWorld(
    openaiKey: Option<string>,
    googleKey: Option<string>,
    openaiReply: (string, nat) -> Reply<OpenAIImagePayload>,
    googleReply: string -> Reply<GooglePayload>,
    atob: string -> Option<string>)

  /** The provider calls the ladder would make for `prompt`, in order, if every one failed. */
  function Candidates(forcePrimaryFailure: bool, prompt: string, w: ImageWorld): seq<CallOutcome<ImageResult>> {
    (if forcePrimaryFailure then []
     else [CallOpenAI(w.openaiKey, w.openaiReply(prompt, 0), w.atob),
           CallOpenAI(w.openaiKey, w.openaiReply(prompt, 1), w.atob)])
    + [CallGoogle(w.googleKey, w.googleReply(prompt), w.atob)]
  }

  function CandidateProviders(forcePrimaryFailure: bool): seq<ImageProvider> {
    (if forcePrimaryFailure then [] else [OpenAIImage, OpenAIImage]) + [Google]
  }

  /** The image ladder as a specification; a forced fallback makes no call. */
  function ImageLadder(config: JobConfig, variantIndex: nat, w: ImageWorld): (a: Attempted<ImageResult, ImageProvider>)
    ensures config.testMode == ForceImageFallback ==> a == Attempted(FallbackSvg(BuildPrompt(config, variantIndex)), [])
    ensures config.testMode == ForceImagePrimaryFailure ==> a.calls == [Google]
    ensures config.testMode != ForceImageFallback && config.testMode != ForceImagePrimaryFailure ==>
      1 <= |a.calls| <= 3 && a.calls == [OpenAIImage, OpenAIImage, Google][..|a.calls|]
    ensures a.result.provider == ImageFallback ==> a.result == FallbackSvg(BuildPrompt(config, variantIndex))
  {
    var prompt := BuildPrompt(config, variantIndex);
    var fallback := FallbackSvg(prompt);
    if config.testMode == ForceImageFallback then Attempted(fallback, [])
    else
      var forced := config.testMode == ForceImagePrimaryFailure;
      ImageLadderCalls(forced, prompt, w, fallback);
      ImageLadderResult(forced, prompt, w, fallback);
      Ladder(Candidates(forced, prompt, w), CandidateProviders(forced), fallback)
  }

  /**
   * The candidate calls for `prompt`, made one at a time until the first
   * success: OpenAI at most twice (not at all when a primary failure is
   * forced), then Google, then the placeholder.
   */
  method CallLadder(forcePrimaryFailure: bool, prompt: string, w: ImageWorld, fallback: ImageResult)
    returns (r: ImageResult, calls: seq<ImageProvider>)
    ensures r == Ladder(Candidates(forcePrimaryFailure, prompt, w), CandidateProviders(forcePrimaryFailure), fallback).result
    ensures calls == Ladder(Candidates(forcePrimaryFailure, prompt, w), CandidateProviders(forcePrimaryFailure), fallback).calls
  {
    ghost var cs := Candidates(forcePrimaryFailure, prompt, w);
    ghost var ps := CandidateProviders(forcePrimaryFailure);
    calls := [];
    var attempt := 0;
    while attempt < 2
      invariant 0 <= attempt <= 2
      invariant calls == if forcePrimaryFailure then [] else ps[..attempt]
      invariant !forcePrimaryFailure ==> forall j :: 0 <= j < attempt ==> cs[j].Fail?
    {
      if !forcePrimaryFailure {
        calls := calls + [OpenAIImage];
        var outcome := CallOpenAI(w.openaiKey, w.openaiReply(prompt, attempt), w.atob);
        assert cs[attempt] == outcome;
        if outcome.Ok? {
          LadderStopsAt(cs, ps, fallback, attempt);
          return outcome.result, calls;
        }
      }
      attempt := attempt + 1;
    }
    calls := calls + [Google];
    var secondary := CallGoogle(w.googleKey, w.googleReply(prompt), w.atob);
    assert cs[|cs| - 1] == secondary;
    if secondary.Ok? {
      LadderStopsAt(cs, ps, fallback, |cs| - 1);
      r := secondary.result;
    } else {
      LadderExhausted(cs, ps, fallback);
      r := fallback;
    }
  }

  /** The image for one variant and the provider calls it took, in order. */
  method GenerateImageVariant(config: JobConfig, variantIndex: nat, w: ImageWorld)
    returns (r: ImageResult, calls: seq<ImageProvider>)
    ensures r == ImageLadder(config, variantIndex, w).result
    ensures calls == ImageLadder(config, variantIndex, w).calls
  {
    var prompt := BuildPrompt(config, variantIndex);
    if config.testMode == ForceImageFallback {
      return FallbackSvg(prompt), [];
    }
    r, calls := CallLadder(config.testMode == ForceImagePrimaryFailure, prompt, w, FallbackSvg(prompt));
  }

  /**
   * The calls the image ladder makes for any prompt: only Google for a forced
   * primary failure, otherwise a non-empty prefix of two OpenAI attempts
   * followed by Google.
   */
  lemma ImageLadderCalls(forced: bool, prompt: string, w: ImageWorld, fallback: ImageResult)
    ensures var calls := Ladder(Candidates(forced, prompt, w), CandidateProviders(forced), fallback).calls;
      && (forced ==> calls == [Google])
      && (!forced ==> 1 <= |calls| <= 3 && calls == [OpenAIImage, OpenAIImage, Google][..|calls|])
  {
    LadderOutline(Candidates(forced, prompt, w), CandidateProviders(forced), fallback);
  }

  /**
   * Where the image comes from: a provider-tagged result is the decoded
   * answer of the last call made; any other is the placeholder, reached
   * after every candidate failed.
   */
  lemma ImageLadderResult(forced: bool, prompt: string, w: ImageWorld, fallback: ImageResult)
    requires fallback.provider == ImageFallback
    ensures var out := Ladder(Candidates(forced, prompt, w), CandidateProviders(forced), fallback);
      && (out.result.provider != ImageFallback ==> out.calls != [] && out.result.provider == out.calls[|out.calls| - 1]
                                                   && out.result.bytes.Decoded?)
      && (out.result.provider == ImageFallback ==> out.result == fallback && out.calls == CandidateProviders(forced))
  {
    var cs := Candidates(forced, prompt, w);
    var ps := CandidateProviders(forced);
    LadderOutline(cs, ps, fallback);
    assert forall j :: 0 <= j < |cs| && cs[j].Ok? ==> cs[j].result.provider == ps[j] && cs[j].result.bytes.Decoded?;
  }

  /** A first-attempt OpenAI success is used as is, with no further call. */
  lemma PrimarySuccessFirst(prompt: string, w: ImageWorld, fallback: ImageResult)
    requires CallOpenAI(w.openaiKey, w.openaiReply(prompt, 0), w.atob).Ok?
    ensures Ladder(Candidates(false, prompt, w), CandidateProviders(false), fallback)
            == Attempted(CallOpenAI(w.openaiKey, w.openaiReply(prompt, 0), w.atob).result, [OpenAIImage])
  {
    LadderStopsAt(Candidates(false, prompt, w), CandidateProviders(false), fallback, 0);
  }
}
