/**
 * Ad copy for one variant: a prompt, up to two calls to the primary
 * provider (Anthropic), one to the secondary (OpenAI), and a deterministic
 * fallback when both fail.
 */
module CopyAdapter {
  import opened Wrappers
  import opened Strings
  import opened Providers

  const DefaultCtas: seq<string> := ["Build It", "Launch It", "Get Started", "See Demo"]
  const DefaultBody: string := "AI-generated body copy."
  const FallbackBody: string := "Automatically generated copy fallback used due provider unavailability."
  const FallbackSeed: string := "Launch conversion-ready creative fast."
  const InvalidResponse: string := "provider_response_invalid"

  /** The lines of the copy prompt, in order. */
  function PromptLines(config: JobConfig, variantIndex: nat): seq<string> {
    [ "You generate high-performing ad copy in JSON.",
      "Return only valid JSON matching this shape:",
      "{ \"headline\": string, \"body\": string, \"cta\": string }",
      "Variant index: " + NatToString(variantIndex + 1),
      "Campaign mode: " + config.mode.Name(),
      "Messages: " + Join(config.messages, " | "),
      "Platforms: " + Join(config.platforms, ", ") ]
  }

  /** The prompt sent to both copy providers: the lines joined by newlines. */
  function BuildPrompt(config: JobConfig, variantIndex: nat): (p: string)
    ensures Contains(p, "Variant index: " + NatToString(variantIndex + 1))
    ensures Contains(p, "Campaign mode: " + config.mode.Name())
    ensures Contains(p, "Messages: " + Join(config.messages, " | "))
    ensures Contains(p, "Platforms: " + Join(config.platforms, ", "))
  {
    var lines := PromptLines(config, variantIndex);
    JoinContainsPart(lines, "\n", 3);
    JoinContainsPart(lines, "\n", 4);
    JoinContainsPart(lines, "\n", 5);
    JoinContainsPart(lines, "\n", 6);
    Join(lines, "\n")
  }

  /** Whether `t` opens with three backticks and the word `json` in any case. */
  predicate OpensJsonFence(t: string) {
    |t| >= 7 && t[..3] == "```" && EqualsIgnoringAsciiCase(t[3..7], "json")
  }

  /** The reply text with surrounding whitespace and a Markdown `json` fence removed. */
  function CleanCopyText(raw: string): (r: string)
    ensures r == [] || (!IsWhitespace(r[0]) && !IsWhitespace(r[|r| - 1]))
  {
    var t := Trim(raw);
    var unfenced := if OpensJsonFence(t) then TrimStart(t[7..]) else t;
    var closed := if IsSuffix("```", unfenced) then unfenced[..|unfenced| - 3] else unfenced;
    Trim(closed)
  }

  /** A fenced reply cleans to the trimmed text between the fences. */
  lemma FencedReplyCleans(inner: string)
    ensures CleanCopyText("```json" + inner + "```") == Trim(inner)
  {
    var head := "```json";
    var raw := head + inner + "```";
    assert raw == head + (inner + "```");
    assert raw[..7] == head;
    assert raw[..3] == head[..3] == "```";
    assert raw[3..7] == head[3..7] == "json";
    assert Trim(raw) == raw by {
      assert TrimStart(raw) == raw;
      assert TrimEnd(raw) == raw;
    }
    assert OpensJsonFence(raw);
    assert raw[7..] == inner + "```";
    TrimStartAppend(inner, "```");
    var unfenced := TrimStart(inner) + "```";
    assert IsSuffix("```", unfenced);
    assert unfenced[..|unfenced| - 3] == TrimStart(inner);
    TrimStartIdempotent(inner);
  }

  /** Text already trimmed and free of fences passes through unchanged. */
  lemma PlainReplyUnchanged(raw: string)
    requires raw == [] || (!IsWhitespace(raw[0]) && !IsWhitespace(raw[|raw| - 1]))
    requires !OpensJsonFence(raw) && !IsSuffix("```", raw)
    ensures CleanCopyText(raw) == raw
  {
    assert TrimStart(raw) == raw;
    assert TrimEnd(raw) == raw;
  }

  /** The three fields of a parsed reply; each may be absent. */
  datatype CopyFields = CopyFields(headline: Option<string>, body: Option<string>, cta: Option<string>)

  datatype CopyText = CopyText(headline: string, body: string, cta: string)

  /**
   * Reads the copy out of a provider reply. `parseJson` is `JSON.parse`
   * applied to the cleaned text; `None` is a parse that throws.
   */
  function ParseCopyJson(raw: string, parseJson: string -> Option<CopyFields>): (r: CallOutcome<CopyText>)
    ensures r.Ok? <==> parseJson(CleanCopyText(raw)).Some?
                       && !Falsy(parseJson(CleanCopyText(raw)).value.headline)
                       && !Falsy(parseJson(CleanCopyText(raw)).value.cta)
    ensures parseJson(CleanCopyText(raw)).Some? && r.Fail? ==> r.reason == InvalidResponse
    ensures r.Ok? ==> var f := parseJson(CleanCopyText(raw)).value;
                      && r.result.headline == f.headline.value && r.result.headline != ""
                      && r.result.cta == f.cta.value && r.result.cta != ""
                      && r.result.body == f.body.GetOr(DefaultBody)
  {
    match parseJson(CleanCopyText(raw))
    case None => Fail(UnparsableJson)
    case Some(f) =>
      if Falsy(f.headline) || Falsy(f.cta) then Fail(InvalidResponse)
      else Ok(CopyText(f.headline.value, f.body.GetOr(DefaultBody), f.cta.value))
  }

  /** Stands for the runtime's message when `JSON.parse` throws. */
  const UnparsableJson: string := "SyntaxError"

  /** The Anthropic messages reply: `content` blocks, each with a type and maybe text. */
  datatype ContentBlock = ContentBlock(kind: string, text: Option<string>)
  datatype AnthropicPayload = AnthropicPayload(content: Option<seq<ContentBlock>>)

  /** The OpenAI chat reply; a choice's `None` covers a missing message or content. */
  datatype ChatChoice = ChatChoice(content: Option<string>)
  datatype ChatPayload = ChatPayload(choices: Option<seq<ChatChoice>>)

  /** The text of the first block whose type is `text`. */
  function FirstTextBlock(blocks: seq<ContentBlock>): (t: Option<string>)
    ensures t.Some? ==> exists k :: 0 <= k < |blocks| && blocks[k].kind == "text" && blocks[k].text == t
    ensures (forall k :: 0 <= k < |blocks| ==> blocks[k].kind != "text") ==> t.None?
  {
    if blocks == [] then None
    else if blocks[0].kind == "text" then blocks[0].text
    else FirstTextBlock(blocks[1..])
  }

  /** Copy from a reply's text, tagged with the provider, or the reason it was refused. */
  function CopyFromText(text: Option<string>, provider: CopyProvider, parseJson: string -> Option<CopyFields>): (r: CallOutcome<CopyResult>)
    ensures Falsy(text) ==> r == Fail(InvalidResponse)
    ensures r.Ok? ==> !Falsy(text) && r.result.provider == provider
                      && r.result.headline != "" && r.result.cta != ""
    ensures !Falsy(text) ==> (r.Ok? <==> ParseCopyJson(text.value, parseJson).Ok?)
  {
    if Falsy(text) then Fail(InvalidResponse)
    else match ParseCopyJson(text.value, parseJson)
      case Fail(reason) => Fail(reason)
      case Ok(c) => Ok(CopyResult(c.headline, c.body, c.cta, provider))
  }

  /** One call to Anthropic, given the key and the reply the request got. */
  function CallAnthropic(key: Option<string>, reply: Reply<AnthropicPayload>, parseJson: string -> Option<CopyFields>): (r: CallOutcome<CopyResult>)
    ensures RequestFailure(key, reply).Some? ==> r == Fail(RequestFailure(key, reply).value)
    ensures r.Ok? ==> !Falsy(key) && reply.IsOk() && r.result.provider == Anthropic
    ensures r.Ok? ==> r.result.headline != "" && r.result.cta != ""
  {
    match RequestFailure(key, reply)
    case Some(reason) => Fail(reason)
    case None =>
      var content := reply.body.value.content;
      CopyFromText(if content.None? then None else FirstTextBlock(content.value), Anthropic, parseJson)
  }

  /** One call to OpenAI chat completions; the text is the first choice's message content. */
  function CallOpenAI(key: Option<string>, reply: Reply<ChatPayload>, parseJson: string -> Option<CopyFields>): (r: CallOutcome<CopyResult>)
    ensures RequestFailure(key, reply).Some? ==> r == Fail(RequestFailure(key, reply).value)
    ensures r.Ok? ==> !Falsy(key) && reply.IsOk() && r.result.provider == OpenAICopy
    ensures r.Ok? ==> r.result.headline != "" && r.result.cta != ""
  {
    match RequestFailure(key, reply)
    case Some(reason) => Fail(reason)
    case None =>
      var choices := reply.body.value.choices;
      CopyFromText(if choices.None? || choices.value == [] then None else choices.value[0].content, OpenAICopy, parseJson)
  }

  /** The copy used when no provider delivered: seeded by a message when there is one. */
  function BuildFallback(config: JobConfig, variantIndex: nat): (r: CopyResult)
    ensures r.provider == CopyFallback && r.body == FallbackBody
    ensures r.cta == DefaultCtas[variantIndex % 4]
    ensures IsPrefix("AI Variant " + NatToString(variantIndex + 1) + ": ", r.headline)
    ensures |config.messages| > 0 && config.messages[variantIndex % |config.messages|] != ""
            ==> r.headline == "AI Variant " + NatToString(variantIndex + 1) + ": " + config.messages[variantIndex % |config.messages|]
    ensures (|config.messages| == 0 || config.messages[variantIndex % |config.messages|] == "")
            ==> r.headline == "AI Variant " + NatToString(variantIndex + 1) + ": " + FallbackSeed
  {
    var seed := if |config.messages| == 0 then "" else config.messages[variantIndex % |config.messages|];
    var lead := "AI Variant " + NatToString(variantIndex + 1) + ": ";
    CopyResult(lead + (if seed == "" then FallbackSeed else seed), FallbackBody, DefaultCtas[variantIndex % 4], CopyFallback)
  }

  /**
   * What the providers answer for one variant. The replies are functions of
   * the prompt sent and, for the primary, the attempt number.
   */
  datatype CopyWorld = CopyWorld(
    anthropicKey: Option<string>,
    openaiKey: Option<string>,
    anthropicReply: (string, nat) -> Reply<AnthropicPayload>,
    openaiReply: string -> Reply<ChatPayload>,
    parseJson: string -> Option<CopyFields>)

  /** The provider calls the ladder would make for `prompt`, in order, if every one failed. */
  function Candidates(forcePrimaryFailure: bool, prompt: string, w: CopyWorld): seq<CallOutcome<CopyResult>> {
    (if forcePrimaryFailure then []
     else [CallAnthropic(w.anthropicKey, w.anthropicReply(prompt, 0), w.parseJson),
           CallAnthropic(w.anthropicKey, w.anthropicReply(prompt, 1), w.parseJson)])
    + [CallOpenAI(w.openaiKey, w.openaiReply(prompt), w.parseJson)]
  }

  /** Which provider each candidate call goes to. */
  function CandidateProviders(forcePrimaryFailure: bool): seq<CopyProvider> {
    (if forcePrimaryFailure then [] else [Anthropic, Anthropic]) + [OpenAICopy]
  }

  /**
   * The copy ladder as a specification. A forced fallback makes no call at
   * all; a forced primary failure leaves out both Anthropic calls.
   */
  function CopyLadder(config: JobConfig, variantIndex: nat, w: CopyWorld): (a: Attempted<CopyResult, CopyProvider>)
    ensures config.testMode == ForceCopyFallback ==> a == Attempted(BuildFallback(config, variantIndex), [])
    ensures config.testMode == ForceCopyPrimaryFailure ==> a.calls == [OpenAICopy]
    ensures config.testMode != ForceCopyFallback && config.testMode != ForceCopyPrimaryFailure ==>
      1 <= |a.calls| <= 3 && a.calls == [Anthropic, Anthropic, OpenAICopy][..|a.calls|]
    ensures a.result.provider == CopyFallback ==> a.result == BuildFallback(config, variantIndex)
  {
    if config.testMode == ForceCopyFallback then Attempted(BuildFallback(config, variantIndex), [])
    else
      var forced := config.testMode == ForceCopyPrimaryFailure;
      var prompt := BuildPrompt(config, variantIndex);
      CopyLadderCalls(forced, prompt, w, BuildFallback(config, variantIndex));
      CopyLadderResult(forced, prompt, w, BuildFallback(config, variantIndex));
      Ladder(Candidates(forced, prompt, w), CandidateProviders(forced), BuildFallback(config, variantIndex))
  }

  /**
   * The candidate calls for `prompt`, made one at a time until the first
   * success: the primary at most twice (not at all when a primary failure
   * is forced), then the secondary, then the fallback.
   */
  method CallLadder(forcePrimaryFailure: bool, prompt: string, w: CopyWorld, fallback: CopyResult)
    returns (r: CopyResult, calls: seq<CopyProvider>)
    ensures r == Ladder(Candidates(forcePrimaryFailure, prompt, w), CandidateProviders(forcePrimaryFailure), fallback).result
    ensures calls == Ladder(Candidates(forcePrimaryFailure, prompt, w), CandidateProviders(forcePrimaryFailure), fallback).calls
  {
    ghost var cs := Candidates(forcePrimaryFailure, prompt, w);
    ghost var ps := CandidateProviders(forcePrimaryFailure);
    calls := [];
    var attempt := 0;
    while attempt < 2
      invariant 0 <= attempt <= 2
      invariant calls == if forcePrimaryFailure then [] else ps[..attempt]
      invariant !forcePrimaryFailure ==> forall j :: 0 <= j < attempt ==> cs[j].Fail?
    {
      if !forcePrimaryFailure {
        calls := calls + [Anthropic];
        var outcome := CallAnthropic(w.anthropicKey, w.anthropicReply(prompt, attempt), w.parseJson);
        assert cs[attempt] == outcome;
        if outcome.Ok? {
          LadderStopsAt(cs, ps, fallback, attempt);
          return outcome.result, calls;
        }
      }
      attempt := attempt + 1;
    }
    calls := calls + [OpenAICopy];
    var secondary := CallOpenAI(w.openaiKey, w.openaiReply(prompt), w.parseJson);
    assert cs[|cs| - 1] == secondary;
    if secondary.Ok? {
      LadderStopsAt(cs, ps, fallback, |cs| - 1);
      r := secondary.result;
    } else {
      LadderExhausted(cs, ps, fallback);
      r := fallback;
    }
  }

  /** The copy for one variant and the provider calls it took, in order. */
  method GenerateCopyVariant(config: JobConfig, variantIndex: nat, w: CopyWorld)
    returns (r: CopyResult, calls: seq<CopyProvider>)
    ensures r == CopyLadder(config, variantIndex, w).result
    ensures calls == CopyLadder(config, variantIndex, w).calls
  {
    if config.testMode == ForceCopyFallback {
      return BuildFallback(config, variantIndex), [];
    }
    r, calls := CallLadder(config.testMode == ForceCopyPrimaryFailure, BuildPrompt(config, variantIndex), w, BuildFallback(config, variantIndex));
  }

  /**
   * The calls the ladder makes for any prompt: only OpenAI for a forced
   * primary failure, and otherwise a non-empty prefix of two Anthropic
   * attempts followed by OpenAI, so it stops at the first success. (A forced
   * fallback calls nothing, by the definition of `CopyLadder`.)
   */
  lemma CopyLadderCalls(forced: bool, prompt: string, w: CopyWorld, fallback: CopyResult)
    ensures var calls := Ladder(Candidates(forced, prompt, w), CandidateProviders(forced), fallback).calls;
      && (forced ==> calls == [OpenAICopy])
      && (!forced ==> 1 <= |calls| <= 3 && calls == [Anthropic, Anthropic, OpenAICopy][..|calls|])
  {
    LadderOutline(Candidates(forced, prompt, w), CandidateProviders(forced), fallback);
  }

  /**
   * Where the copy comes from: a provider-tagged result is the answer of the
   * last call made and has a headline and a call to action; any other result
   * is the fallback, reached after every candidate failed.
   */
  lemma CopyLadderResult(forced: bool, prompt: string, w: CopyWorld, fallback: CopyResult)
    requires fallback.provider == CopyFallback
    ensures var out := Ladder(Candidates(forced, prompt, w), CandidateProviders(forced), fallback);
      && (out.result.provider != CopyFallback ==> out.calls != [] && out.result.provider == out.calls[|out.calls| - 1]
                                                  && out.result.headline != "" && out.result.cta != "")
      && (out.result.provider == CopyFallback ==> out.result == fallback && out.calls == CandidateProviders(forced))
  {
    CandidatesMatchProviders(forced, prompt, w);
    LadderOutline(Candidates(forced, prompt, w), CandidateProviders(forced), fallback);
  }

  /** Each candidate call that succeeds answers with its own provider and a headline and call to action. */
  lemma CandidatesMatchProviders(forced: bool, prompt: string, w: CopyWorld)
    ensures var cs := Candidates(forced, prompt, w);
      var ps := CandidateProviders(forced);
      && |cs| == |ps|
      && forall j :: 0 <= j < |cs| && cs[j].Ok? ==>
           cs[j].result.provider == ps[j] && cs[j].result.headline != "" && cs[j].result.cta != ""
  {
  }

  /** When Anthropic answers the first attempt, that answer is used and nothing else is called. */
  lemma PrimarySuccessFirst(prompt: string, w: CopyWorld, fallback: CopyResult)
    requires CallAnthropic(w.anthropicKey, w.anthropicReply(prompt, 0), w.parseJson).Ok?
    ensures Ladder(Candidates(false, prompt, w), CandidateProviders(false), fallback)
            == Attempted(CallAnthropic(w.anthropicKey, w.anthropicReply(prompt, 0), w.parseJson).result, [Anthropic])
  {
    LadderStopsAt(Candidates(false, prompt, w), CandidateProviders(false), fallback, 0);
  }

  /** Without any key every call fails, so the fallback is used after every candidate call. */
  lemma NoKeysFallsBack(forced: bool, prompt: string, w: CopyWorld, fallback: CopyResult)
    requires Falsy(w.anthropicKey) && Falsy(w.openaiKey)
    ensures Ladder(Candidates(forced, prompt, w), CandidateProviders(forced), fallback)
            == Attempted(fallback, CandidateProviders(forced))
  {
    var cs := Candidates(forced, prompt, w);
    assert forall j :: 0 <= j < |cs| ==> cs[j].Fail?;
    LadderExhausted(cs, CandidateProviders(forced), fallback);
  }
}
