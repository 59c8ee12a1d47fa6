# AdPower, modelled in Dafny

AdPower generates ad creative in batches. A Cloudflare worker takes a campaign's
generation request, checks it against a per-session daily quota, and stores a
job. A queue consumer then processes the job one variant index after another.
For each index it asks a copy provider for a headline, body and call to action,
and an image provider for a picture. Each provider side is a failover ladder:
primary, then secondary, then a local fallback. It stores the image in the
asset bucket, scores the variant's confidence and inserts the variant row.
Then it closes the job as completed, perhaps with a partial failure, or as
failed. Sessions are signed tokens in a cookie, and requests pass a
fixed-window rate limiter.

The browser workspace is a reducer over one state record. Selectors derive
counts and labels from it. The address bar carries the view and wizard step,
and preferences are kept in local storage. Three operations scripts share a
small HTTP client. One checks a metrics summary against alert thresholds. One
validates that real providers and the failover paths work.

The project models:

- The job processor (`queue.dfy`). The job, variant and blob stores are classes
  over maps and sequences (`db.dfy`).
- The copy and image provider ladders (`copy_adapter.dfy`, `image_adapter.dfy`).
  The ladder shape they share, the job configuration and provider tags are in
  `providers.dfy`.
- The rate limiter and daily quota (`rate_limit.dfy`).
- The session token and its base64url coding (`auth.dfy`, `binary.dfy`).
- The request-layer helpers and the queue consumer's ack/retry loop (`api.dfy`).
- The workspace reducer (`reducer.dfy`), selectors (`selectors.dfy`), address
  state (`workspace_url.dfy`), preferences (`prefs.dfy`) and microcopy
  (`microcopy.dfy`).
- The operations scripts (`check_alerts.dfy`, `validate_capabilities.dfy`,
  `api_client.dfy`).
- Shared helpers: `wrappers.dfy` (options, outcomes) and `strings.dfy` (the
  JavaScript string operations the code relies on).

Foreign primitives are function-typed parameters: `JSON.parse`, `Number()`,
`new URL().hostname`, `atob`/`btoa`, the HMAC `sign`, `Date.now()` and
`Math.random()`. Remote replies are pre-parsed payload values. Confidence is
an integer in hundredths. Loop progress is the integer `((i + 1) * 90) / n`.

## Model

| member | source | states |
|---|---|---|
| Binary.CharCodesToBytes | worker/src/lib/providers/image.ts:30-37 | one byte per character, as many bytes as characters |
| Binary.BytesToBinary | worker/src/lib/auth.ts:4 | one character per byte, every character code below 256 |
| Binary.BytesRoundTrip | worker/src/lib/auth.ts:4-16 | bytes written as a binary string and read back are the same bytes |
| Binary.BinaryRoundTrip | worker/src/lib/auth.ts:4-16 | a binary string read as bytes and written back is the same string |
| Providers.RequestFailure | worker/src/lib/providers/copy.ts:56-79 | a call fails with `provider_auth_missing` without a key, with `provider_auth_{status}` on a non-2xx response, and goes on to read the body only with a key and a 2xx response whose body parsed |
| Providers.FirstOk | worker/src/lib/providers/copy.ts:173-189 | the index of the first successful call: every earlier call failed, and it is the length when all failed |
| Providers.LadderStopsAt | worker/src/lib/providers/copy.ts:173-189 | a success after only failures is the ladder's result, and the calls end with it |
| Providers.LadderExhausted | worker/src/lib/providers/copy.ts:185-189 | when every call fails, the result is the fallback, after every call |
| Providers.LadderOutline | worker/src/lib/providers/copy.ts:173-189 | the calls made are a non-empty prefix of the candidates, and the result is the last call's answer or, after all of them failed, the fallback |
| CopyAdapter.BuildPrompt | worker/src/lib/providers/copy.ts:23-33 | the prompt holds the one-based variant index, the mode, the messages joined by a spaced vertical bar and the platforms joined by `, ` |
| CopyAdapter.CleanCopyText | worker/src/lib/providers/copy.ts:36 | the cleaned text neither begins nor ends with whitespace |
| CopyAdapter.FencedReplyCleans | worker/src/lib/providers/copy.ts:36 | a reply wrapped in a Markdown `json` code fence cleans to the trimmed text between the fences |
| CopyAdapter.PlainReplyUnchanged | worker/src/lib/providers/copy.ts:36 | a trimmed reply without fences is left as it is |
| CopyAdapter.ParseCopyJson | worker/src/lib/providers/copy.ts:35-53 | the copy is read exactly when the cleaned text parses and has a non-empty headline and CTA; a missing body becomes `AI-generated body copy.`; a parsed reply without them is `provider_response_invalid` |
| CopyAdapter.FirstTextBlock | worker/src/lib/providers/copy.ts:85 | the text is that of some block of type `text`, and there is none when no block has that type |
| CopyAdapter.CopyFromText | worker/src/lib/providers/copy.ts:85-94 | a missing or empty text is `provider_response_invalid`; otherwise the copy is read exactly when it parses, tagged with the provider, with a headline and CTA |
| CopyAdapter.CallAnthropic | worker/src/lib/providers/copy.ts:55-95 | a request failure is the call's failure; a success needs a key and a 2xx reply, is tagged `anthropic`, and has a headline and CTA |
| CopyAdapter.CallOpenAI | worker/src/lib/providers/copy.ts:97-145 | a request failure is the call's failure; a success needs a key and a 2xx reply, is tagged `openai`, and has a headline and CTA |
| CopyAdapter.BuildFallback | worker/src/lib/providers/copy.ts:147-159 | tagged `fallback`, with the fixed body, CTA `defaultCtas[i mod 4]`, and headline `AI Variant {i+1}: ` followed by the seed message, or the default suffix when there is no seed |
| CopyAdapter.CallLadder | worker/src/lib/providers/copy.ts:170-189 | the retry loop makes the ladder's calls, one at a time in order, and returns the ladder's result |
| CopyAdapter.GenerateCopyVariant | worker/src/lib/providers/copy.ts:161-190 | the copy and the calls are the ladder's; a forced fallback calls nothing |
| CopyAdapter.CopyLadderCalls | worker/src/lib/providers/copy.ts:170-189 | a forced primary failure calls only OpenAI; otherwise the calls are a non-empty prefix of Anthropic, Anthropic, OpenAI, so Anthropic is tried at most twice and OpenAI only after both failed |
| CopyAdapter.CopyLadderResult | worker/src/lib/providers/copy.ts:170-189 | a provider-tagged result comes from the last call made and has a headline and CTA; a fallback result comes only after every candidate failed, so the ladder never throws |
| CopyAdapter.CopyLadder | worker/src/lib/providers/copy.ts:160-189 | a forced fallback makes no call and gives the fallback copy; a forced primary failure calls only OpenAI; otherwise the calls are a non-empty prefix of Anthropic, Anthropic, OpenAI; a fallback result is always the built fallback copy |
| CopyAdapter.CandidatesMatchProviders | worker/src/lib/providers/copy.ts:93 | each successful candidate answers with its own provider's tag and a headline and CTA |
| CopyAdapter.PrimarySuccessFirst | worker/src/lib/providers/copy.ts:173-183 | a first-attempt Anthropic success is used and nothing else is called |
| CopyAdapter.NoKeysFallsBack | worker/src/lib/providers/copy.ts:185-189 | without keys every call fails and the fallback is used after all of them |
| ImageAdapter.BuildPrompt | worker/src/lib/providers/image.ts:21-28 | the prompt holds the one-based variant index, the mode and the platforms joined by `, ` |
| ImageAdapter.DecodeBase64 | worker/src/lib/providers/image.ts:30-37 | bytes come back exactly when `atob` accepts the text, one per decoded character |
| ImageAdapter.Base64ToBytes | worker/src/lib/providers/image.ts:30-37 | the array filled one character code at a time is the specification's decoding |
| ImageAdapter.FirstInlineData | worker/src/lib/providers/image.ts:119-121 | the data found is some part's non-empty inline data, and none is found when no part has any |
| ImageAdapter.ImageFromBase64 | worker/src/lib/providers/image.ts:67-76 | missing data is `provider_response_invalid`, data `atob` rejects fails, and otherwise the image is the decoded bytes with the given type and provider |
| ImageAdapter.CallOpenAI | worker/src/lib/providers/image.ts:39-77 | a request failure is the call's failure; a success needs a key and a 2xx reply, is tagged `openai`, and is a decoded PNG |
| ImageAdapter.CallGoogle | worker/src/lib/providers/image.ts:79-132 | a request failure is the call's failure; a success needs a key and a 2xx reply, is tagged `google`, and is decoded bytes |
| ImageAdapter.GoogleImageTyped | worker/src/lib/providers/image.ts:119-131 | a Gemini reply with decodable inline data yields those bytes, typed by the part's `mimeType` or `image/png` when it names none, tagged `google` |
| ImageAdapter.SafePromptText | worker/src/lib/providers/image.ts:135-149 | the embedded text is at most 56 UTF-16 code units long, holds no `<`, `>` or `&`, and is the prompt with those removed when that fits; every character comes from the prompt or is U+FFFD |
| ImageAdapter.SafePromptTextOfBmp | worker/src/lib/providers/image.ts:135-149 | for a prompt inside the Basic Multilingual Plane the text is the markup-free prompt or its first 56 characters |
| ImageAdapter.SplitPairShownReplaced | worker/src/lib/providers/image.ts:149 | when the 56-unit cut falls inside a surrogate pair, the lone half is written as U+FFFD, as `TextEncoder` does |
| ImageAdapter.FallbackSvg | worker/src/lib/providers/image.ts:134-156 | the placeholder is tagged `fallback`, typed `image/svg+xml`, and is the UTF-8 encoding of the SVG document around the code-unit-cut safe prompt text, which it contains |
| ImageAdapter.FallbackSvgMarkupFixed | worker/src/lib/providers/image.ts:135-149 | every markup character of the placeholder lies in its fixed head or tail, whatever the prompt |
| ImageAdapter.CallLadder | worker/src/lib/providers/image.ts:167-186 | the retry loop makes the ladder's calls, one at a time in order, and returns the ladder's result |
| ImageAdapter.GenerateImageVariant | worker/src/lib/providers/image.ts:158-187 | the image and the calls are the ladder's; a forced fallback calls nothing |
| ImageAdapter.ImageLadderCalls | worker/src/lib/providers/image.ts:167-186 | a forced primary failure calls only Google; otherwise the calls are a non-empty prefix of OpenAI, OpenAI, Google |
| ImageAdapter.ImageLadderResult | worker/src/lib/providers/image.ts:167-186 | a provider-tagged image comes from the last call made and is decoded bytes; the placeholder comes only after every candidate failed |
| ImageAdapter.ImageLadder | worker/src/lib/providers/image.ts:158-186 | a forced fallback makes no call and gives the placeholder; a forced primary failure calls only Google; otherwise the calls are a non-empty prefix of OpenAI, OpenAI, Google; a fallback result is always the placeholder for the prompt |
| ImageAdapter.PrimarySuccessFirst | worker/src/lib/providers/image.ts:170-180 | a first-attempt OpenAI success is used and nothing else is called |
| Queue.ParseMaxVariants | worker/src/lib/queue.ts:11-18 | the cap is the setting when that is a positive integer, and 20 otherwise; it is always at least 1 |
| Queue.VariantsTarget | worker/src/lib/queue.ts:80-83 | the target is at least 1 and at most the larger of 1 and each bound; it is the request when that lies within the cap, and the cap when the request is larger |
| Queue.ExtensionFromContentType | worker/src/lib/queue.ts:20-30 | `svg` exactly when the type mentions svg; otherwise `jpg` exactly when it mentions jpeg or jpg; `png` for everything else |
| Queue.AdapterContentTypesExtensions | worker/src/lib/queue.ts:20-30 | the fallback SVG image is stored as `.svg` and a PNG image as `.png` |
| Queue.ClampConfidence | worker/src/lib/queue.ts:61 | the stored confidence lies in [0, 5] and a score already in that range is kept |
| Queue.ComputeConfidence | worker/src/lib/queue.ts:32-62 | the score the step-by-step accumulation reaches is the clamped rule-based score: 3.6, +0.5 for a headline of 25 to 95 UTF-16 code units, +0.3 for a body over 32 units, +0.2 for a CTA over 3 units, -0.4 for fallback copy, -0.35 for a fallback image |
| Queue.RawConfidence | worker/src/lib/queue.ts:39-59 | the unclamped rule-based score, counting lengths in UTF-16 code units, lies in [2.85, 4.60] |
| Queue.AstralHeadlineEarnsBonus | worker/src/lib/queue.ts:41-43 | a headline of 13 characters outside the Basic Multilingual Plane is 26 code units long and earns the headline bonus |
| Queue.ConfidenceWithinBounds | worker/src/lib/queue.ts:39-61 | the unclamped score always lies in [2.85, 4.60], so the clamp never changes it |
| Queue.FallbackLowersConfidence | worker/src/lib/queue.ts:53-59 | other inputs equal, a fallback copy provider or a fallback image provider gives a strictly lower confidence |
| Queue.RemoteProvidersKeepBaseline | worker/src/lib/queue.ts:39-59 | when neither provider is the fallback the confidence is at least 3.6 |
| Queue.RunOf | worker/src/lib/queue.ts:79-107 | the pass runs for the job's id and campaign with its parsed config, and its copy and image at each index are what the two provider ladders give |
| Queue.GenerateVariantPair | worker/src/lib/queue.ts:104-107 | the copy and image of an index are that index's ladder results |
| Queue.GenerateAndStore | worker/src/lib/queue.ts:109-153 | the image is put under its key unless the put is rejected; the row is inserted exactly when both the put and the insert go through, and the step reports whether it was |
| Queue.GenerateStep | worker/src/lib/queue.ts:103-153 | one loop iteration extends the inserted rows and the bucket by exactly what that index contributes, and adds one to the generated count exactly when a row was inserted |
| Queue.ReportStart | worker/src/lib/queue.ts:85-90 | the start update marks the job running at progress 5 with its start time, and is logged |
| Queue.ReportProgress | worker/src/lib/queue.ts:96-101 | each index writes one running update with that index's progress and stage |
| Queue.ReportOutcome | worker/src/lib/queue.ts:156-183 | the closing update is written last, after all the loop's updates |
| Queue.PassStep | worker/src/lib/queue.ts:95-154 | one iteration keeps the pass invariant: rows, bucket, counts and job updates are those of the first `index + 1` indices |
| Queue.WritesSplit | worker/src/lib/queue.ts:85-183 | when the counts are the pass's own, the updates written are the start update, the loop updates and the matching closing update |
| Queue.RunLoop | worker/src/lib/queue.ts:92-154 | the loop visits every index below the target once; afterwards the generated and failed counts add up to the target and rows, bucket and updates are those of the whole pass |
| Queue.RunPass | worker/src/lib/queue.ts:79-183 | a pass appends exactly the rows of the stored indices, puts exactly the accepted images, writes exactly the pass's updates and leaves the job merged with them |
| Queue.ProcessGenerationJob | worker/src/lib/queue.ts:64-194 | a missing job or a completed or failed one returns with nothing written; a config that does not parse throws with nothing written; any other job gets a full pass |
| Queue.DivMonotone | worker/src/lib/queue.ts:96 | integer division by a positive number keeps order |
| Queue.MultipleDiv | worker/src/lib/queue.ts:96 | a multiple of n divided by n gives back the factor |
| Queue.ProgressShape | worker/src/lib/queue.ts:96 | the progress at index i is in [0, 90], never goes down as i grows, and is 90 at the last index |
| Queue.FirstProgressDips | worker/src/lib/queue.ts:87-96 | the first loop progress is below the start progress 5 exactly when there are 19 or more indices |
| Queue.LoopPatchesAt | worker/src/lib/queue.ts:95-101 | the i-th loop update is the one index i writes |
| Queue.PassUpdatesOrder | worker/src/lib/queue.ts:85-183 | the updates are the start, one per index in order, then the closing one at 100; after the start progress never goes down |
| Queue.WritesOrder | worker/src/lib/queue.ts:85-183 | a pass writes n + 2 updates, ends in a completed or failed status at progress 100, and its progress never goes down after the start |
| Queue.StoredRowsShape | worker/src/lib/queue.ts:127-140 | every inserted row is a pending, AI-generated variant of this job and campaign with an image key and a confidence in [2.85, 4.60] |
| Queue.NoUnderscoreInNumber | worker/src/lib/queue.ts:109 | a decimal number holds no `_`, so the parts of a variant id can be told apart |
| Queue.VariantIdIndex | worker/src/lib/queue.ts:109 | a variant id determines the index it was made for, whatever the clock reading |
| Queue.ImageKeyIndex | worker/src/lib/queue.ts:111 | an image key determines the index of its variant, whatever the extension |
| Queue.KeysDistinct | worker/src/lib/queue.ts:109-111 | different indices of one pass get different variant ids and different image keys |
| Queue.PutBlobStep | worker/src/lib/queue.ts:113-117 | a later put does not overwrite an earlier index's image |
| Queue.PutBlobSurvives | worker/src/lib/queue.ts:113-117 | every accepted put is in the bucket at the end, under its key and with its image |
| Queue.RowKeysInBucket | worker/src/lib/queue.ts:111-140 | every inserted row's image key names an object in the bucket |
| Queue.StoredRowsHaveImages | worker/src/lib/queue.ts:111-140 | each stored index has its row in the table, naming its own image, which is in the bucket |
| Queue.NoRowForKeyStep | worker/src/lib/queue.ts:127-153 | a row added after a rejected index does not name that index's image |
| Queue.NoRowForKey | worker/src/lib/queue.ts:127-153 | no row names the image of an index whose put or insert was rejected |
| Queue.RejectedInsertLeavesImage | worker/src/lib/queue.ts:113-144 | an accepted put followed by a rejected insert leaves an image in the bucket that no row names |
| Queue.MergeLoopPatches | worker/src/lib/queue.ts:95-101 | after the loop's updates the job is running at the last index's progress and stage, with error, start and completion untouched |
| Queue.MergeStartAndLoop | worker/src/lib/queue.ts:85-101 | after the start and loop updates the job keeps its identity and error and carries its start time |
| Queue.FinalRecord | worker/src/lib/queue.ts:156-183 | the job ends at progress 100 with both times; failed with `provider_timeout` iff nothing was stored; completed otherwise, with a `partial_failure` error carrying both counts when some index failed |
| Queue.FinalJob | worker/src/lib/queue.ts:156-183 | the same ending for the counts the pass itself reaches |
| Queue.CountsAddUp | worker/src/lib/queue.ts:142-144 | every index is counted once, as generated or as failed |
| Db.NewJob | worker/src/lib/db.ts:80-94 | a new job is queued at progress 0 with the given id, campaign, mode, config and stage, and no error, start or completion time |
| Db.MergeJobFields | worker/src/lib/db.ts:137-145 | the job's identity never changes, the status is always the patch's, and each optional field takes the patch's value exactly when the patch supplies one, so a null `errorJson` cannot clear a stored error |
| Db.MergeJobIdempotent | worker/src/lib/db.ts:137-145 | applying the same update twice is the same as applying it once |
| Db.MergeJobComposes | worker/src/lib/db.ts:137-145 | two updates in a row act as one update in which the later supplied value wins |
| Db.MergeJob | worker/src/lib/db.ts:137-145 | an update keeps the job's id, campaign and creation time, sets the patch's status, and keeps the error when the patch supplies none |
| Db.MergeAllSnoc | worker/src/lib/db.ts:109-147 | a further update after a run of updates extends the run by one |
| Db.MergeAllAppend | worker/src/lib/db.ts:109-147 | two runs of updates one after the other act as one run of both |
| Db.MergeAllKeepsIdentity | worker/src/lib/db.ts:137-145 | however many updates are applied, the job keeps its id, campaign, mode, config and creation time |
| Db.JobStore.Get | worker/src/lib/db.ts:97-107 | a job is found exactly when its id is in the table, and the row found is the stored one |
| Db.JobStore.Create | worker/src/lib/db.ts:70-95 | a new id gets the new-job row and nothing else changes; an id already present is rejected and the table is left alone |
| Db.JobStore.Update | worker/src/lib/db.ts:109-147 | a missing job means no write at all; an existing job is replaced by its merge with the patch, and the update is logged |
| Db.FlagColumn | worker/src/lib/db.ts:185 | the stored flag is 0 or 1, and 1 exactly when the flag is set |
| Db.VariantRowOf | worker/src/lib/db.ts:166-188 | the row stores every field of the variant as given, `ai_generated` as 1 iff the variant is AI-generated, and the insert time |
| Db.VariantStore.Insert | worker/src/lib/db.ts:149-189 | a write that goes through appends exactly the variant's row; a rejected write changes nothing |
| Db.BlobStore.Put | worker/src/lib/db.ts:149-189 | a write that goes through stores the object under its key and leaves other keys alone; a rejected write changes nothing |
| Db.RenderConditions | worker/src/lib/db.ts:204-214 | one `column = ?n` text per condition, in order |
| Db.ListVariantsStatement | worker/src/lib/db.ts:200-217 | the campaign is bound at ?1; a status, when given, is the second condition bound at ?2; limit and offset take the last two placeholders; every condition's placeholder names a bind position |
| Db.NextCursor | worker/src/lib/db.ts:224-227 | a next cursor is given exactly when the page came back full |
| Db.NextCursorReadsBack | worker/src/lib/db.ts:225-227 | a full page's cursor is a decimal numeral whose value is `cursor + limit` |
| Db.ListVariantsPage | worker/src/lib/db.ts:191-233 | the page holds the returned rows, or none for no result set, and has a next cursor exactly when it holds `limit` rows |
| Db.ByIdsQuery | worker/src/lib/db.ts:298-315 | no statement is made exactly when there are no ids |
| Db.PlaceholdersNumbered | worker/src/lib/db.ts:306 | split at the commas, the placeholder list has one part per id, and part k is `?k+1` |
| RateLimit.Decide | worker/src/lib/rateLimit.ts:3-36 | a call with no bucket or an expired one opens a window and is allowed with `max(0, limit - 1)` left; otherwise it is allowed iff the count is under the limit, keeps the window's reset time, and reports the remaining calls or 0 |
| RateLimit.After | worker/src/lib/rateLimit.ts:11-30 | opening a window sets the bucket to one call; a refused call changes nothing; an admitted call raises the count by one; other keys are untouched |
| RateLimit.RateLimiter.Enforce | worker/src/lib/rateLimit.ts:3-36 | the answer is the specification's decision and the bucket map becomes the specification's new map |
| RateLimit.LiveWindowBound | worker/src/lib/rateLimit.ts:21-35 | calls inside a live window admit at most `limit - count` more and keep the same reset time |
| RateLimit.AtMostLimitPerWindow | worker/src/lib/rateLimit.ts:3-36 | with a positive limit, at most `limit` calls are admitted in one window |
| RateLimit.NonPositiveLimitAdmitsOpening | worker/src/lib/rateLimit.ts:11-27 | with a limit of zero or less the opening call is still admitted, and no later call in that window is |
| RateLimit.DecideQuota | worker/src/lib/rateLimit.ts:56-84 | a job is admitted iff today's count is under the maximum; refused jobs report 0 left, admitted ones `max(0, max - (count + 1))` |
| RateLimit.QuotaAfter | worker/src/lib/rateLimit.ts:58-79 | a refusal writes nothing; an admission inserts a row at 1 or adds one to the existing row |
| RateLimit.UsageTable.ConsumeDailyJobQuota | worker/src/lib/rateLimit.ts:42-85 | the answer and the new table are the specification's decision and table |
| RateLimit.QuotaNeverExceeded | worker/src/lib/rateLimit.ts:42-85 | run after run, a session's daily count never passes the maximum, grows by exactly the admitted jobs, and leaves other rows alone |
| Auth.Swap | worker/src/lib/auth.ts:5 | the two global replacements keep the length and leave no `+` and no `/` |
| Auth.UrlSafe | worker/src/lib/auth.ts:5 | the url-safe text has no `+`, no `/` and no trailing `=` |
| Auth.ToBase64Url | worker/src/lib/auth.ts:3-6 | the encoding of any bytes has no `+`, no `/` and no trailing `=` |
| Auth.Sign | worker/src/lib/auth.ts:29-38 | a signature is url-safe base64 text: no `+`, no `/` and no trailing `=` |
| Auth.Normalize | worker/src/lib/auth.ts:9 | normalising keeps the length and leaves no `-` and no `_` |
| Auth.Pad | worker/src/lib/auth.ts:10 | padding appends fewer than four `=` and reaches a multiple of four |
| Auth.DecodeBase64Url | worker/src/lib/auth.ts:8-17 | bytes come back iff `atob` accepts the padded text, one byte per decoded character |
| Auth.FromBase64Url | worker/src/lib/auth.ts:8-17 | the byte array filled one character code at a time is the specification's decoding |
| Auth.StripTrailingAt | worker/src/lib/auth.ts:5 | `replace(/=+$/, '')` removes exactly the final run of `=` |
| Auth.UrlSafeOfStandard | worker/src/lib/auth.ts:5 | on standard base64 the url-safe text is the unpadded part with the two replacements |
| Auth.NormalizeUndoesSwap | worker/src/lib/auth.ts:5-9 | normalising undoes the replacements on alphabet characters |
| Auth.PadRestores | worker/src/lib/auth.ts:10 | padding the unpadded part of standard base64 gives back its padding |
| Auth.UrlSafeRoundTrip | worker/src/lib/auth.ts:3-10 | normalising and padding the url-safe form of standard base64 restores it exactly |
| Auth.UrlSafeShape | worker/src/lib/auth.ts:3-6 | the url-safe form of non-empty base64 has at least two characters and no `.` |
| Auth.CreateSignedSessionToken | worker/src/lib/auth.ts:40-51 | the token is the encoded payload, a dot, then that payload's signature |
| Auth.VerifySignedSessionToken | worker/src/lib/auth.ts:53-76 | a token without two non-empty segments, or whose second segment is not the first's signature, is refused |
| Auth.OnlyFirstTwoSegments | worker/src/lib/auth.ts:57 | tokens that agree on their first two segments verify alike |
| Auth.SplitTwo | worker/src/lib/auth.ts:57 | two dot-free segments joined by a dot split back into those two |
| Auth.ToBase64UrlRoundTrip | worker/src/lib/auth.ts:3-17 | the base64url text of non-empty bytes is non-empty, dot-free, and decodes back to those bytes |
| Auth.VerifyCreated | worker/src/lib/auth.ts:40-76 | a token this code created verifies to the session id it was created for |
| Auth.ForgedSignatureRefused | worker/src/lib/auth.ts:62-65 | a token whose signature is not the payload's own is refused |
| Api.ResolveCorsOrigin | worker/src/index.ts:27-49 | an absent or empty origin is refused; the configured app origin (by default `https://adpower.pages.dev`) and the local dev origin are echoed; any other origin is echoed exactly when both hosts parse and its host is the app's host or a subdomain of it; nothing but the request's own origin is ever echoed |
| Api.SubdomainAllowed | worker/src/index.ts:37-43 | a page on any subdomain of the app's host is allowed |
| Api.NoOtherOriginEchoed | worker/src/index.ts:27-49 | the answer is the request's origin or nothing, never some other origin |
| Api.ParseIntSafe | worker/src/index.ts:51-62 | the fallback for an absent or empty text or one whose number is not finite; that number otherwise, integer or not |
| Api.Clamp | worker/src/index.ts:329-354 | the result lies in the range, a value inside it is kept, and one outside it goes to the nearer end |
| Api.WindowHours | worker/src/index.ts:329-332 | the metrics window lies in [1, 336] hours and is 24 when not asked for |
| Api.VariantLimit | worker/src/index.ts:353 | the page size lies in [1, 200] and is 40 when not asked for |
| Api.VariantCursor | worker/src/index.ts:354 | the offset is never negative, is 0 when not asked for, and a finite non-negative request is kept |
| Api.ClampedQueryKeepsInRange | worker/src/index.ts:329-353 | a finite request within [1, 200] is the page size as asked, and the window is that number capped at 336 |
| Api.ClassifyError | worker/src/index.ts:64-80 | the first of `timeout`, `auth`, `db` found in an `Error`'s message decides the code; anything else, non-`Error` values included, is `unknown_error` |
| Api.TimeoutWins | worker/src/index.ts:66-68 | a message mentioning a timeout is a provider timeout whatever else it mentions |
| Api.ToApiError | worker/src/index.ts:82-88 | a non-empty `Error` message as it is, otherwise the fallback |
| Api.ShownError | worker/src/index.ts:307-315 | no stored error shows none; an unparsable one shows its raw text; a parsed one shows its message, else its code, else none |
| Api.AllFailedShown | worker/src/index.ts:307-315 | a job that failed every variant is shown with the message the processor stored for it |
| Api.StoredTarget | worker/src/index.ts:279 | the stored target is the requested count or the cap, whichever is smaller |
| Api.AdmissionOf | worker/src/index.ts:240-280 | a job is admitted exactly when the body is valid, its test mode is allowed, there is a session and the session's daily quota is not used up; the refusals come in that order with statuses 400, 400, 401 and 429; an admitted request keeps its config with the target capped |
| Api.AdmitGenerationJob | worker/src/index.ts:240-265 | the route's answer is the specification's, and quota is consumed only by a request that passed the earlier checks |
| Api.AdmittedTestModeEnabled | worker/src/index.ts:248-251 | a job that asks for a test mode is admitted only where the deployment enables test modes |
| Api.MessageBatch.Ack | worker/src/index.ts:550 | acking appends one ack for that message |
| Api.MessageBatch.Retry | worker/src/index.ts:560 | retrying appends one retry for that message |
| Api.Settlements | worker/src/index.ts:545-562 | one settlement per message, in message order |
| Api.SettledExactlyOnce | worker/src/index.ts:545-562 | every message is settled exactly once, acked when processing returned and retried when it threw |
| Api.OutcomeFor | worker/src/index.ts:548-561 | processing throws exactly for a queued or running job whose config does not parse |
| Api.SettleMessage | worker/src/index.ts:546-561 | one message: its job is processed, the job table changes by that job's pass only, and the message is acked or retried according to the outcome |
| Api.HandleStep | worker/src/index.ts:545-562 | one turn of the loop settles one more message, keeping the settled-prefix invariant |
| Api.HandleBatch | worker/src/index.ts:544-563 | the messages are processed in order, each against the store the previous one left, and the batch ends with exactly one ack or retry per message |
| Workspace.MergeExportSettings | src/lib/workspace/reducer.ts:283-291 | every key the patch has wins and every other key keeps its value |
| Workspace.ClampStep | src/lib/workspace/reducer.ts:7-9 | the step lies in 0..5, is kept inside that range, and out-of-range steps go to the nearest end |
| Workspace.Ids | src/lib/workspace/reducer.ts:237 | the ids of the variants, one per variant, in order |
| Workspace.RemoveAll | src/lib/workspace/reducer.ts:218 | the id is gone, every other id is present exactly when it was, and the list grows no longer |
| Workspace.RemoveAbsent | src/lib/workspace/reducer.ts:218 | filtering out an id that is not there leaves the list unchanged |
| Workspace.WithStatus | src/lib/workspace/reducer.ts:251-258 | the mapped list has as many variants as before |
| Workspace.InitialStateAt | src/lib/workspace/reducer.ts:15-52 | the opening state has the requested view, idle generation at progress 0 with no job, the saved mode and export settings, no selection, the fallback variants, auth being checked, no toast and the requested debug mode |
| Workspace.InitialStateAsWritten | src/lib/workspace/reducer.ts:20 | as written, the wizard step is the option's one-based step clamped without subtracting one |
| Workspace.InitialState | src/lib/workspace/reducer.ts:15-52 | corrected: the wizard step is the one-based step minus one, clamped |
| Workspace.InitialStepLikeNavigation | src/lib/workspace/reducer.ts:59-66 | the corrected opening step equals the step `NAVIGATE_VIEW` moves to with the same one-based step |
| Workspace.InitialStepAsWrittenAdvances | src/lib/workspace/reducer.ts:20 | as written, each one-based step from 1 to 5 opens one wizard step further on than navigating with it |
| Workspace.Reduce | src/lib/workspace/reducer.ts:54-414 | only `NAVIGATE_VIEW` and `SET_WIZARD_STEP` move the wizard step |
| Workspace.StepStaysInRange | src/lib/workspace/reducer.ts:59-73 | from a wizard step in 0..5 every action leads to a step in 0..5 |
| Workspace.NavigateViewSteps | src/lib/workspace/reducer.ts:59-66 | the view is set; a given one-based step moves the wizard to that step minus one, clamped, and exactly there when it is 1..6; without one the step is kept; nothing else changes |
| Workspace.TuningChangesOnlySupplied | src/lib/workspace/reducer.ts:92-104 | each supplied count replaces its value, each missing one is kept, nothing else changes |
| Workspace.ToggleSelection | src/lib/workspace/reducer.ts:216-225 | an unselected id is appended; a selected one is removed while every other id keeps its membership; nothing else changes |
| Workspace.Toggle | src/lib/workspace/reducer.ts:217-219 | the id is in the result exactly when it was not selected, and every other id keeps its membership |
| Workspace.ToggleTwice | src/lib/workspace/reducer.ts:216-225 | toggling an unselected id twice gives back the original state |
| Workspace.ToggleSelectAll | src/lib/workspace/reducer.ts:227-239 | a non-empty selection is cleared; an empty one becomes every review variant's id, in order; nothing else changes |
| Workspace.BatchWithoutSelection | src/lib/workspace/reducer.ts:262-265 | with no selection a batch update returns the state itself |
| Workspace.BatchUpdatesSelected | src/lib/workspace/reducer.ts:262-281 | exactly the selected variants take the new status, every variant keeps its place and other fields, and the selection is cleared |
| Workspace.PatchChangesOnlyMatching | src/lib/workspace/reducer.ts:248-260 | only the variants with the id take the status; the rest of the state is unchanged |
| Workspace.GenerationLifecycle | src/lib/workspace/reducer.ts:106-179 | a created job is queued at 0 on the generate view at stage `Queued`; completion is at 100 on the review view at stage `Completed`; failure keeps progress and view |
| Workspace.UnrecognisedKeepsState | src/lib/workspace/reducer.ts:411-412 | an unknown action returns the state itself |
| Workspace.ExportRequestedLoads | src/lib/workspace/reducer.ts:293-299 | an export request sets the loading flag, clears the error and changes nothing else |
| Workspace.ExportCompletedRecords | src/lib/workspace/reducer.ts:301-317 | completion clears loading and error, records the id and link, and the toast says a download is ready iff the link is truthy |
| Workspace.ExportFailedKeepsError | src/lib/workspace/reducer.ts:319-330 | failure clears loading, keeps the error and shows it in an error toast |
| Workspace.AuthSuccessUnlocks | src/lib/workspace/reducer.ts:352-361 | success authenticates without error and announces the given message, else the unlock message |
| Workspace.AuthFailureKeepsError | src/lib/workspace/reducer.ts:363-381 | failure leaves the workspace unauthenticated with the error; a required sign-in does so without one |
| Workspace.AuthPendingStatus | src/lib/workspace/reducer.ts:332-350 | checking and authenticating states carry no error |
| Workspace.ExportSettingsMerged | src/lib/workspace/reducer.ts:283-291 | the new export settings are the old ones with the patch spread over them; nothing else changes |
| Workspace.SetEntryNew | src/lib/workspace/reducer.ts:190-192 | `Map.set` with a new key appends the entry |
| Workspace.SetEntryOld | src/lib/workspace/reducer.ts:190-192 | `Map.set` with a present key adds no entry |
| Workspace.SetEntryAt | src/lib/workspace/reducer.ts:190-192 | after one `set` each earlier place keeps its key, and its entry unless that key was set |
| Workspace.SetEntryShape | src/lib/workspace/reducer.ts:190-192 | on distinct keys one `set` replaces an existing key in place or appends a new one, and keys stay distinct |
| Workspace.SetEntriesKeeps | src/lib/workspace/reducer.ts:190-193 | a run of `set`s keeps keys distinct, keeps earlier keys in place, and leaves any entry whose key does not come in |
| Workspace.SetEntryIdSet | src/lib/workspace/reducer.ts:190-192 | one `set` adds its own key to the keys and nothing else |
| Workspace.SetEntriesIdSet | src/lib/workspace/reducer.ts:190-193 | a run of `set`s adds exactly the incoming keys |
| Workspace.SetEntriesFresh | src/lib/workspace/reducer.ts:190-193 | entries with distinct new keys are appended in order |
| Workspace.UpsertIds | src/lib/workspace/reducer.ts:189-200 | the upserted list has distinct ids and they are exactly the old and the incoming ids |
| Workspace.UpsertKeepsOrder | src/lib/workspace/reducer.ts:189-200 | an old list with distinct ids keeps its order and its ids come first, followed by the new ids in order of first arrival; an old entry that comes in holds the last incoming variant with its id, and one not coming in is kept as it was |
| Workspace.UpsertAppendsNew | src/lib/workspace/reducer.ts:189-200 | variants with new distinct ids are appended after the old list in arrival order |
| Workspace.Upsert | src/lib/workspace/reducer.ts:190-197 | the ids are the distinct ids of the old and incoming lists in order of first appearance, and each entry is the last variant with its id in the old list followed by the incoming one |
| Workspace.SetEntry | src/lib/workspace/reducer.ts:192 | setting a key leaves that variant in the map and adds at most one entry |
| Workspace.SetEntries | src/lib/workspace/reducer.ts:191-193 | setting every incoming variant adds at most one entry per incoming variant |
| Workspace.SetEntriesOrder | src/lib/workspace/reducer.ts:190-197 | a map with distinct keys keeps its insertion order and appends new keys in order of first arrival |
| Workspace.SetEntriesLatest | src/lib/workspace/reducer.ts:190-197 | after the sets, each entry holds the last value with its key in the whole history |
| Workspace.LastWithId | src/lib/workspace/reducer.ts:192 | the last variant with an id in a list, or none when no variant has it |
| Workspace.WizardStepSet | src/lib/workspace/reducer.ts:68-73 | the wizard step becomes the clamped step, an in-range step is taken as it is, and nothing else changes |
| Workspace.ObjectiveSet | src/lib/workspace/reducer.ts:75-80 | the objective is replaced and nothing else changes |
| Workspace.GenerationModeSet | src/lib/workspace/reducer.ts:82-90 | the generation mode is replaced and nothing else changes |
| Workspace.GenerationProgressReported | src/lib/workspace/reducer.ts:130-142 | status, progress, stage, loading message and elapsed time take the reported values; the job id, mode, feedback and the rest of the state are kept |
| Workspace.ReviewVariantsReplaced | src/lib/workspace/reducer.ts:181-187 | the review list is replaced and its error cleared; the selection and everything else are kept |
| Workspace.ReviewLoadingSet | src/lib/workspace/reducer.ts:202-207 | the loading flag is set and nothing else changes |
| Workspace.ReviewErrorSet | src/lib/workspace/reducer.ts:209-214 | the review error is set and nothing else changes |
| Workspace.SelectionCleared | src/lib/workspace/reducer.ts:241-246 | the selection is emptied and nothing else changes |
| Workspace.LiveMessageSet | src/lib/workspace/reducer.ts:383-388 | the announcement is set and nothing else changes |
| Workspace.LiveMessageCleared | src/lib/workspace/reducer.ts:390-395 | the announcement is emptied and nothing else changes |
| Workspace.ToastSet | src/lib/workspace/reducer.ts:397-402 | the toast is shown and nothing else changes |
| Workspace.ToastCleared | src/lib/workspace/reducer.ts:404-409 | the toast is removed and nothing else changes |
| Selectors.CountStatus | src/lib/workspace/selectors.ts:8-25 | the number of variants with a status never exceeds the number of variants |
| Selectors.SelectedVariantCount | src/lib/workspace/selectors.ts:4-6 | the count is the length of the selection |
| Selectors.ApprovedVariantCount | src/lib/workspace/selectors.ts:8-10 | the number of approved variants is at most the number of variants, and is 0 exactly when none is approved |
| Selectors.PendingVariantCount | src/lib/workspace/selectors.ts:12-14 | the number of pending variants is at most the number of variants, and is 0 exactly when none is pending |
| Selectors.RejectedVariantCount | src/lib/workspace/selectors.ts:16-18 | the number of rejected variants is at most the number of variants, and is 0 exactly when none is rejected |
| Selectors.CountStatusExtremes | src/lib/workspace/selectors.ts:8-25 | a status count is 0 exactly when no variant has that status, and is the full length exactly when every one does |
| Selectors.VariantCountByStatus | src/lib/workspace/selectors.ts:20-25 | counting by a status agrees with the dedicated approved, pending and rejected counters (lines 8-18) |
| Selectors.StatusCountsPartition | src/lib/workspace/selectors.ts:8-18 | approved, pending and rejected counts add up to the length of any variant list |
| Selectors.CountsCoverReview | src/lib/workspace/selectors.ts:8-18 | the three counts of a state together are all its review variants |
| Selectors.BatchUpdateCounts | src/lib/workspace/selectors.ts:20-25 | after a batch status update the count of that status has not gone down |
| Selectors.NavIsActive | src/lib/workspace/selectors.ts:27-33 | the assets item is active iff the campaign view is on wizard step 5; any other item iff its view is shown |
| Selectors.AssetsItemActivates | src/data.ts:187-193 | following the assets item (campaign view, step 6) makes it the active item |
| Selectors.InitialAssetsActive | src/lib/workspace/selectors.ts:27-33 | a workspace opened on the campaign view at step 6 or later shows the assets item active and the clients item inactive |
| Selectors.PlatformLabels | src/lib/workspace/selectors.ts:36-41 | at most four labels, none iff no platform is enabled |
| Selectors.PlatformLabelsExact | src/lib/workspace/selectors.ts:36-41 | each platform name is among the labels exactly when that platform is enabled |
| Selectors.PlatformLabelsOrdered | src/lib/workspace/selectors.ts:36-41 | the labels come in the fixed order Meta Ads, Instagram, Google Ads, LinkedIn, each at most once |
| Selectors.SelectedPlatformsLabel | src/lib/workspace/selectors.ts:35-48 | `No platform selected` when no label, otherwise the labels joined with `, ` |
| Selectors.LabelNamesEnabled | src/lib/workspace/selectors.ts:35-48 | the label text contains the name of every enabled platform |
| Selectors.LabelReadsBack | src/lib/workspace/selectors.ts:47 | splitting the joined text at commas gives back the first label and each later label after one space, so the text names exactly the enabled platforms in order |
| Selectors.NoPlatformLabel | src/lib/workspace/selectors.ts:43-45 | the text is `No platform selected` exactly when no platform is enabled |
| Selectors.NoPlatformLabelHasNoName | src/lib/workspace/selectors.ts:43-45 | the empty-selection text contains none of the four platform names |
| Selectors.ProgressShown | src/lib/workspace/selectors.ts:50-52 | the value shown lies in 0..100 and is the progress itself when that is already in range |
| Selectors.ProgressPercent | src/lib/workspace/selectors.ts:50-52 | the text is a decimal numeral followed by `%`, and the numeral reads back to the progress clamped to [0, 100] |
| WorkspaceUrl.Get | src/components/VariantWorkspace.tsx:84-86 | `searchParams.get` gives a value iff the parameter is present, and then its value |
| WorkspaceUrl.ParseView | src/components/VariantWorkspace.tsx:38-44 | a missing or empty value gives nothing, and any view given is one whose address name is the value |
| WorkspaceUrl.ParseViewName | src/components/VariantWorkspace.tsx:36-44 | every view's name is read back as that view |
| WorkspaceUrl.ParseStep | src/components/VariantWorkspace.tsx:46-57 | nothing for a missing or empty value; a step iff `Number` gives an integer; the step lies in 1..6 and is the number itself inside that range |
| WorkspaceUrl.ToUserMessage | src/components/VariantWorkspace.tsx:63-73 | an `ApiError`'s message even when empty, another `Error`'s message when not empty, otherwise the fallback |
| WorkspaceUrl.UserMessageNonEmpty | src/components/VariantWorkspace.tsx:63-73 | the message shown is never empty unless an `ApiError` carried an empty one or the fallback is empty |
| WorkspaceUrl.WriteQuery | src/components/VariantWorkspace.tsx:178-191 | the written address names the view, carries the one-based step on the campaign view only, sets `debug=1` in debug mode and leaves every other parameter as it was |
| WorkspaceUrl.QueryActions | src/components/VariantWorkspace.tsx:202-218 | at most two actions, and none when the address names no view |
| WorkspaceUrl.QueryActionsFollowAddress | src/components/VariantWorkspace.tsx:208-217 | after the dispatched actions the view is the one the address names, the wizard step is the address's step minus one on the campaign view, and otherwise unchanged |
| WorkspaceUrl.StepRoundTrip | src/components/VariantWorkspace.tsx:184 | a one-based step written for a wizard step in range is read back as that same number |
| WorkspaceUrl.WrittenQueryIsSettled | src/components/VariantWorkspace.tsx:178-218 | reading back the address written for a state dispatches no action, so the two effects do not loop |
| WorkspaceUrl.InitialOptions | src/components/VariantWorkspace.tsx:82-94 | the opening view is the address's view else the saved one, the step the address's step else 1, debug mode iff `debug=1` |
| WorkspaceUrl.ReopenRestores | src/components/VariantWorkspace.tsx:82-94 | with the corrected initial state, reopening at the written address restores the view, debug mode and, on the campaign view, the wizard step |
| WorkspaceUrl.ReopenAsWrittenAdvances | src/lib/workspace/reducer.ts:20 | as written, reopening the campaign view at the address written for wizard step k < 5 lands on step k + 1 |
| Prefs.FromStored | src/lib/storage/prefs.ts:36-43 | each stored key wins over its default, and a stored `exportSettings` is spread over the default export settings |
| Prefs.LoadPreferences | src/lib/storage/prefs.ts:24-47 | the defaults without a window, when reading throws, when nothing or an empty text is stored, or when the text does not parse to an object; the stored object over the defaults otherwise |
| Prefs.StoredKeysWin | src/lib/storage/prefs.ts:39-42 | each export key present in storage wins and each absent one keeps its default value |
| Prefs.EmptyObjectIsDefault | src/lib/storage/prefs.ts:35-43 | a stored `{}` loads as the default preferences |
| Prefs.Stored | src/lib/storage/prefs.ts:55 | the object written for a set of preferences has every key |
| Prefs.FromStoredRoundTrip | src/lib/storage/prefs.ts:35-43 | a complete stored object reads back to exactly the preferences it was written from |
| Prefs.PreferenceStore.Raw | src/lib/storage/prefs.ts:30 | `getItem` gives the stored text under the key, or nothing |
| Prefs.PreferenceStore.Load | src/lib/storage/prefs.ts:24-47 | without a window or a stored entry the defaults load; a non-empty stored text loads as the stored object read over the defaults when it parses, and as the defaults otherwise |
| Prefs.PreferenceStore.Save | src/lib/storage/prefs.ts:49-59 | without a window or when the write fails nothing changes; otherwise only the key is set to the serialised preferences |
| Prefs.LoadAfterSave | src/lib/storage/prefs.ts:24-59 | when the last write went through, loading gives back exactly the preferences saved |
| Microcopy.PickIndex | src/microcopy.ts:65-67 | the index `Math.floor(r * n)` is below `n` and is the slice of [0, 1) that holds the draw |
| Microcopy.PickRandom | src/microcopy.ts:65-67 | the message picked is one of the pool's, the one whose slice holds the draw |
| Microcopy.EveryMessageReachable | src/microcopy.ts:65-67 | every message of a pool is drawn for some draw in [0, 1) |
| Microcopy.GetLoadingMessage | src/microcopy.ts:92-102 | the message comes from the short pool up to 3 seconds, the medium pool up to 10, the long pool after |
| Microcopy.LoadingMessageTellsWait | src/microcopy.ts:34-50 | the three loading pools share no message, so the pool a message lies in is exactly the wait band |
| Microcopy.GreetingPool | src/microcopy.ts:69-90 | Monday's or Friday's pool when the coin is under one half on that day, else morning 6-12, afternoon 12-18, evening otherwise |
| Microcopy.GreetingTemplate | src/microcopy.ts:69-90 | the template drawn lies in the pool chosen for the day, hour and coin |
| Microcopy.GetGreeting | src/microcopy.ts:69-90 | a template without `{name}` is shown unchanged |
| Microcopy.GreetingNamesUser | src/microcopy.ts:74-89 | a template that asks for the name yields a greeting holding the name whenever the name has no `$` |
| Microcopy.OnlyFirstPlaceholderReplaced | src/microcopy.ts:74-89 | only the first `{name}` is replaced, by the name with its `$$`, `$&`, `` $` `` and `$'` patterns expanded, and the rest is kept as written; a name without `$` goes in literally |
| Microcopy.DollarPatternsInName | src/microcopy.ts:74-89 | the name `$&` leaves the template as it was, and `A$$B` is shown as `A$B` |
| CheckAlerts.AlertFor | scripts/ops/check-alerts.mjs:33-82 | the alert of a check carries that check's key and is critical exactly for the success-rate and failure-rate checks |
| CheckAlerts.Check | scripts/ops/check-alerts.mjs:33-82 | one check adds at most one alert, adds one exactly when its condition holds, and then adds its own alert |
| CheckAlerts.EvaluateAlerts | scripts/ops/check-alerts.mjs:20-85 | the list the script builds by pushing, check after check, is the specification's list of alerts |
| CheckAlerts.PrefixIsAlerts | scripts/ops/check-alerts.mjs:33-84 | running all six checks in order on a window with jobs gives exactly the alerts |
| CheckAlerts.AlertsAreFailedChecks | scripts/ops/check-alerts.mjs:33-82 | every alert of a window with jobs is its own check's alert, and that check failed |
| CheckAlerts.FiresIff | scripts/ops/check-alerts.mjs:33-82 | for a window with jobs, a check's alert is raised if and only if its condition holds |
| CheckAlerts.NoJobsOneWarning | scripts/ops/check-alerts.mjs:24-31 | a window without jobs raises exactly the one `no_recent_jobs` warning |
| CheckAlerts.Rank | scripts/ops/check-alerts.mjs:33-82 | each check's rank is its place in the order the script runs the checks |
| CheckAlerts.RankedAppend | scripts/ops/check-alerts.mjs:33-82 | appending one check's alert after those of the earlier checks keeps the list in check order |
| CheckAlerts.PrefixRanked | scripts/ops/check-alerts.mjs:33-82 | the alerts of the first n checks are in strictly increasing check order |
| CheckAlerts.AlertsOrdered | scripts/ops/check-alerts.mjs:20-85 | the alerts follow the fixed check order, so no key is raised twice |
| CheckAlerts.CriticalIff | scripts/ops/check-alerts.mjs:33-47 | a critical alert is raised iff the window has jobs and the success rate is under the minimum or the failure rate over the maximum |
| CheckAlerts.ExitStatus | scripts/ops/check-alerts.mjs:110-113 | the run exits with 1 iff failing on alerts is on and an alert is critical, otherwise 0 |
| CheckAlerts.FailOnAlert | scripts/ops/check-alerts.mjs:9 | failing on alerts is off iff `FAIL_ON_ALERT` is exactly `false` |
| CheckAlerts.StartError | scripts/ops/check-alerts.mjs:87-94 | a missing or empty passphrase is refused, and the script goes on iff there is a passphrase and the window is a positive finite number |
| CheckAlerts.RequestedWindowHours | scripts/ops/check-alerts.mjs:102 | the window asked for is the whole number of hours of the setting, `Math.floor` |
| CheckAlerts.LowSuccessFailsRun | scripts/ops/check-alerts.mjs:11-18 | with the default thresholds a window with success rate 0.8 exits with status 1 |
| ValidateCapabilities.CopyName | scripts/ops/validate-capabilities.mjs:49 | a variant without a copy provider is counted as `unknown` |
| ValidateCapabilities.ImageName | scripts/ops/validate-capabilities.mjs:50 | a variant without an image provider is counted as `unknown` |
| ValidateCapabilities.CountOf | scripts/ops/validate-capabilities.mjs:51-52 | a name's count is at most the number of variants and positive exactly when the name occurs |
| ValidateCapabilities.CopyNames | scripts/ops/validate-capabilities.mjs:48-49 | one copy-provider name per variant, in order |
| ValidateCapabilities.ImageNames | scripts/ops/validate-capabilities.mjs:48-50 | one image-provider name per variant, in order |
| ValidateCapabilities.Tally | scripts/ops/validate-capabilities.mjs:44-56 | a tally has a key exactly for the names that occur, each mapped to how often it occurs |
| ValidateCapabilities.SummarizeProviders | scripts/ops/validate-capabilities.mjs:44-56 | the loop's two counters end as the tallies of the copy and image provider names |
| ValidateCapabilities.NamesStep | scripts/ops/validate-capabilities.mjs:51-52 | one more variant bumps each tally under its own names |
| ValidateCapabilities.TallyAppend | scripts/ops/validate-capabilities.mjs:51-52 | the tally of one more name is the old tally with that name's count raised by one |
| ValidateCapabilities.TotalWithout | scripts/ops/validate-capabilities.mjs:44-56 | the sum of a tally's counts does not depend on the order its keys are taken in |
| ValidateCapabilities.TotalBump | scripts/ops/validate-capabilities.mjs:51-52 | bumping one count raises the sum by exactly one |
| ValidateCapabilities.TallyTotal | scripts/ops/validate-capabilities.mjs:44-56 | a tally's counts add up to the number of names |
| ValidateCapabilities.SummaryCountsEveryVariant | scripts/ops/validate-capabilities.mjs:44-56 | each tally counts every variant exactly once, and a variant without a provider makes `unknown` a key |
| ValidateCapabilities.HasRealProvider | scripts/ops/validate-capabilities.mjs:58-63 | true iff some variant's copy or image provider is not `fallback` |
| ValidateCapabilities.Scenarios | scripts/ops/validate-capabilities.mjs:138-146 | the normal scenario first, then the copy and image failover scenarios only when they are enabled |
| ValidateCapabilities.Lower | scripts/ops/validate-capabilities.mjs:158 | lower-casing keeps the length and maps each ASCII letter to lower case |
| ValidateCapabilities.Settle | scripts/ops/validate-capabilities.mjs:150-169 | a completed scenario appends its passed entry; a thrown one is skipped iff it asked for a test mode and says test modes are disabled, otherwise the error is rethrown |
| ValidateCapabilities.RunScenarios | scripts/ops/validate-capabilities.mjs:148-171 | the loop's outcome is the specification's run over all scenarios from an empty list |
| ValidateCapabilities.RunFromEntries | scripts/ops/validate-capabilities.mjs:148-171 | a completed run has one entry per scenario, in scenario order |
| ValidateCapabilities.NormalPassesFirst | scripts/ops/validate-capabilities.mjs:139-169 | the normal scenario is never skipped: a completed run starts with its passed entry, and its error ends the run |
| ValidateCapabilities.RunFromKeeps | scripts/ops/validate-capabilities.mjs:148-171 | the loop only appends: entries gathered earlier are kept |
| ValidateCapabilities.Find | scripts/ops/validate-capabilities.mjs:173 | the entry found has the id and is in the list; nothing is found iff no entry has the id; the first entry wins |
| ValidateCapabilities.FailoverError | scripts/ops/validate-capabilities.mjs:184-207 | no error iff no completed failover entry used the provider it should have failed over from |
| ValidateCapabilities.Verdict | scripts/ops/validate-capabilities.mjs:173-207 | validation passes iff the normal entry passed, had a real provider when one is required, and no failover entry used its primary provider |
| ValidateCapabilities.CopyFailoverUsingAnthropicFails | scripts/ops/validate-capabilities.mjs:192-198 | a copy failover that still counted `anthropic` fails the run |
| ValidateCapabilities.ImageFailoverUsingOpenAiFails | scripts/ops/validate-capabilities.mjs:200-206 | an image failover that still counted `openai` fails the run |
| ValidateCapabilities.Enabled | scripts/ops/validate-capabilities.mjs:7-8 | a switch is off iff it is set to exactly `false` |
| ValidateCapabilities.WithoutFailoverVerdict | scripts/ops/validate-capabilities.mjs:138-182 | with failover off, a completed run passes iff no real provider is required or the normal scenario reported one |
| ApiClient.ToErrorMessage | scripts/ops/api-client.mjs:3-20 | a text that is not blank, else an object's `error` text that is not blank, else the fallback |
| ApiClient.ErrorMessageNotBlank | scripts/ops/api-client.mjs:3-20 | the message is never blank when the fallback is not |
| ApiClient.RequestErrorMessage | scripts/ops/api-client.mjs:84-88 | a failed response without a body reads `Request failed with status` and the status |
| ApiClient.SplitHead | scripts/ops/api-client.mjs:37 | the part before the first `;` holds no `;` and begins the header |
| ApiClient.TrimKeepsOut | scripts/ops/api-client.mjs:38 | trimming brings in no character the text did not have |
| ApiClient.SliceKeepsOut | scripts/ops/api-client.mjs:38 | a slice of a text brings in no character the text did not have |
| ApiClient.TrimmedAlready | scripts/ops/api-client.mjs:38 | a text that neither begins nor ends with whitespace is its own trim |
| ApiClient.ToCookieHeader | scripts/ops/api-client.mjs:32-39 | nothing for a missing or empty header; a cookie iff the part before the first `;` is not blank, and then it holds no `;` and no surrounding whitespace |
| ApiClient.CookieOfHeader | scripts/ops/api-client.mjs:32-39 | a header `name=value; attributes` with a clean pair gives back exactly that pair |
| ApiClient.WithTimeout | scripts/ops/api-client.mjs:41-52 | the caller's signal is used with nothing to clean up; otherwise a controller's signal with a timer cleared afterwards |
| ApiClient.RequestTimeout | scripts/ops/api-client.mjs:67 | the given timeout, else 30000 ms |
| ApiClient.StripTrailingSlash | scripts/ops/api-client.mjs:55 | at most one character is removed, from the end, and exactly when it is `/` |
| ApiClient.ClientOptionsError | scripts/ops/api-client.mjs:55-62 | no error iff the base URL is non-empty after the slash is removed and the passphrase is non-empty; an empty base URL is reported first |
| ApiClient.CreateAuthedClient | scripts/ops/api-client.mjs:54-128 | option errors come first, then a refused session's body message; a client is made iff the options pass, the session is accepted and a cookie comes back, and it carries the stripped base URL and that cookie |
| ApiClient.SlashOnlyBaseRefused | scripts/ops/api-client.mjs:55-58 | a base URL of just `/` is refused as missing |
| ApiClient.SessionCookieKept | scripts/ops/api-client.mjs:110-127 | a session whose cookie header starts with a clean pair gives a client carrying exactly that pair |

## Where the model follows the code

- Queue.VariantsTarget: the target is `max(1, min(targetCount, cap))`. A request for zero or fewer variants still produces one.
- Queue.FirstProgressDips: the start update reports progress 5. With 19 or more indices the first loop update reports less. Progress is monotone only from the first loop update on.
- Queue.RejectedInsertLeavesImage: the image is put in the bucket before the row is inserted. A rejected insert leaves an image that no row names. The two writes are not atomic.
- Microcopy.GetGreeting: `replace` with a string pattern still expands `$$`, `$&`, `` $` `` and `$'` in the name (`Strings.Substitute`). Any other `$`, such as `$1`, stays as written, because a string pattern has no capture groups.
- Queue.RawConfidence and ImageAdapter.SafePromptText: `length` and `slice` count UTF-16 code units (`Strings.Utf16Length`, `Strings.Utf16Prefix`). A character outside the Basic Multilingual Plane counts twice. A cut through a surrogate pair leaves a lone half, which `TextEncoder` writes as U+FFFD.
- Db.MergeJobFields: a `null` in an update keeps the stored value (`??`). A clean completion cannot clear an earlier error, and Queue.FinalRecord states that the error is kept.

## Left out

- Timers: `withTimeout` in both adapters and in the HTTP client is not modelled as a race. A timed-out provider call is one more failed call. `ApiClient.WithTimeout` models only which signal is used and what is cleaned up.
- Concurrency: the two adapter calls under `Promise.all` run one after the other, each with its own outcome. The read-then-write race in `consumeDailyJobQuota` is not modelled.
- Logging: the `console` output of the worker and scripts has no effect on state.
- Time and identifiers: clock readings, `crypto.randomUUID` and the day key of `todayKey` are parameters.
- Stored text: `config_json` is kept as text, and the processor reads it back through a `parseConfig` parameter. A parse failure is the one way the model's processor throws.
- Floating point: confidence is in hundredths. `toFixed(2)` is not modelled; every reachable score is an exact number of hundredths. Progress is exact integer division, and the poll's `toFixed(0)` is left out. `parseIntSafe` and the query clamps work on reals. NaN and the infinities enter only through `Number()`, which is a parameter that reports them as non-finite.
- Numbers in thresholds: alert thresholds are finite reals; a NaN threshold is not modelled.
- Queue.ProcessGenerationJob: a job update that the database rejects, which would throw out of the processor, is not modelled. Only the bucket put and the variant insert can be rejected.
- Db.JobStore.Create: an id already present is refused without a write. D1 would throw instead.
- Database functions outside the generation pipeline are not modelled, because they are single statements with no logic of their own: `ensureCampaignExists`, `updateVariantStatus`, `createExportRecord`, `finalizeExportRecord`, `getExportRecord` and `nowIso`.
- Routes: the routes beyond job admission, job polling, the metrics clamp and the variant-list clamps are left out. These are sessions, variant status, exports and assets. They are header and store plumbing. `getMetricsSummary` is called but not defined in the repository's worker sources, so the metrics route stops at the window clamp.
- Hono, headers and cookies: response headers, the CORS header writing and setting the cookie are left out. The cookie name is the constant `Auth.SessionCookie`.
- The rate limiter's map lives in one worker isolate. The model keeps one map.
- The workspace's effects and views: polling timers, the toast timeout, the scheduling of the address sync and all React views are left out. Only `parseView`, `parseStep`, `toUserMessage`, the initial options and the address reader and writer are modelled. A repeated query parameter is not modelled.
- Prefs.FromStored: a stored `lastView` or `generationMode` is assumed to be one of the datatype's values. The source does not check it. A key written as explicit `undefined` is treated as an absent key.
- Prefs.FromStored: an `exportSettings` key stored as JSON `null` is read as absent and keeps its default. The spread would copy the `null`. `saveWorkspacePreferences` never writes one.
- Prefs.StoredKeysWin: states the same reading, so a stored `null` export key is not covered. The source would load `null` for that key.
- Auth.Pad: lengths are counted in characters, not UTF-16 code units. The two differ only outside the Basic Multilingual Plane, where `atob` refuses the text anyway.
- Queue.VariantsTarget: fractional settings from `parseIntSafe` (`ParseIntSafe` returns a real) are not modelled. The job target and the cap are integers. With `MAX_VARIANTS_PER_JOB="2.5"` the source stores a target of 2.5 and runs indices 0, 1 and 2.
- Queue.ProgressShape: holds for integer targets only. With a target of 2.5 the source reports 36, 72 and 108.
- Queue.PassUpdatesOrder: holds for integer targets only. With a target of 2.5 the source's progress goes 36, 72, 108, then the closing 100, so it goes down.
- Queue.WritesOrder: holds for integer targets only. A target of 2.5 gives three loop updates, not 2.5 + 2 writes, and its progress goes down at the close.
- Providers.JobConfig: the target count is an integer. A fractional target that the job creation route can store is not modelled.
- RateLimit.DecideQuota: the daily maximum is an integer. With `MAX_JOBS_PER_DAY="2.5"` the source admits a third job, because 2 < 2.5.
- Api.AdmissionOf: takes the daily maximum as an integer, for the same reason as RateLimit.DecideQuota.
- Db.ListVariantsPage: the page limit and cursor are integers, while Api.VariantLimit and Api.VariantCursor compute reals. A fractional page bound is not modelled.
- Db.NextCursor: the cursor arithmetic is on integers, for the same reason as Db.ListVariantsPage.
- Reducer ambient values: the toast id (from the clock) and the loading-message draw are parameters of each reduction.
- ValidateCapabilities.Lower: `toLowerCase` is modelled on ASCII letters only.
- Scripts' transport: `request`, `readPayload`, the `waitForJob` and `waitForExport` polling loops, `sleep` and fetch headers are left out. The HTTP sequence of one scenario run is abstracted to a `ScenarioOutcome`. The session call of `createAuthedClient` is a `SessionResponse` parameter.

## Findings

| source | as written | input that shows it | evidently intended | confidence | as-written member | corrected member |
|---|---|---|---|---|---|---|
| src/lib/workspace/reducer.ts:20 | `clampStep(options.initialStep)` takes the address's one-based `step` as the zero-based wizard step. The address writer stores `wizardStep + 1` and `NAVIGATE_VIEW` subtracts one. | Opening `?view=campaign&step=3`, the address written for wizard step 2, lands on step 3. Without a `step` the default 1 opens step 1 instead of the first step 0. | `clampStep(options.initialStep - 1)`, as `NAVIGATE_VIEW` does | medium, not executed | Workspace.InitialStepAsWrittenAdvances, WorkspaceUrl.ReopenAsWrittenAdvances | Workspace.InitialState, WorkspaceUrl.ReopenRestores |
