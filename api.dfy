/**
 * The worker's request layer: which browser origins may call it, how query
 * parameters become numbers, how thrown errors are classified, who may start a
 * generation job, how a stored job error is shown, and how a batch of queue
 * messages is settled.
 */
module Api {
  import opened Wrappers
  import opened Strings
  import opened Providers
  import opened Db
  import opened RateLimit
  import opened Queue

  // ---------------------------------------------------------------------------
  // CORS
  // ---------------------------------------------------------------------------

  const DefaultAppOrigin: string := "https://adpower.pages.dev"
  const DevOrigin: string := "http://localhost:5173"

  /**
   * `resolveCorsOrigin`: the origin to echo back, or `None`. `hostname` is
   * `new URL(text).hostname`, `None` where the constructor throws.
   */
  function ResolveCorsOrigin(origin: Option<string>, appOrigin: Option<string>, hostname: string -> Option<string>): (r: Option<string>)
    ensures r.Some? ==> origin.Some? && r.value == origin.value && origin.value != ""
    ensures origin == None || origin == Some("") ==> r == None
    ensures origin.Some? && origin.value != "" && (origin.value == appOrigin.GetOr(DefaultAppOrigin) || origin.value == DevOrigin)
            ==> r == origin
    ensures origin.Some? && origin.value != "" && origin.value != appOrigin.GetOr(DefaultAppOrigin) && origin.value != DevOrigin
            ==> (r.Some? <==>
                  var appHost := hostname(appOrigin.GetOr(DefaultAppOrigin));
                  var originHost := hostname(origin.value);
                  appHost.Some? && originHost.Some?
                  && (originHost.value == appHost.value || IsSuffix("." + appHost.value, originHost.value)))
  {
    if origin.None? || origin.value == "" then None
    else
      var configured := appOrigin.GetOr(DefaultAppOrigin);
      if origin.value == configured || origin.value == DevOrigin then origin
      else
        match (hostname(configured), hostname(origin.value))
        case (Some(appHost), Some(originHost)) =>
          if originHost == appHost || IsSuffix("." + appHost, originHost) then origin else None
        case _ => None
  }

  /** A page served from any subdomain of the app's host may call the worker. */
  lemma SubdomainAllowed(origin: string, appOrigin: Option<string>, hostname: string -> Option<string>, appHost: string, sub: string)
    requires origin != ""
    requires hostname(appOrigin.GetOr(DefaultAppOrigin)) == Some(appHost)
    requires hostname(origin) == Some(sub + "." + appHost)
    ensures ResolveCorsOrigin(Some(origin), appOrigin, hostname) == Some(origin)
  {
    var host := sub + "." + appHost;
    assert host[|host| - |"." + appHost|..] == "." + appHost;
  }

  /** The origin is echoed back or refused; the worker never substitutes another one. */
  lemma NoOtherOriginEchoed(origin: string, appOrigin: Option<string>, hostname: string -> Option<string>, other: string)
    requires other != origin
    ensures ResolveCorsOrigin(Some(origin), appOrigin, hostname) != Some(other)
  {
  }

  // ---------------------------------------------------------------------------
  // Query numbers and clamps
  // ---------------------------------------------------------------------------

  /**
   * `parseIntSafe`: the fallback for an absent or empty text or a text whose
   * `Number()` is not finite, and that number otherwise (which need not be an
   * integer). `number` is `Number()`.
   */
  function ParseIntSafe(value: Option<string>, fallback: real, number: string -> JsNumber): (r: real)
    ensures value == None || value == Some("") ==> r == fallback
    ensures value.Some? && value.value != "" && !number(value.value).IsFinite() ==> r == fallback
    ensures value.Some? && value.value != "" && number(value.value).IsFinite() ==> r == number(value.value).value
  {
    if value.None? || value.value == "" then fallback
    else match number(value.value)
      case Finite(parsed) => parsed
      case _ => fallback
  }

  /** `Math.max(lo, Math.min(x, hi))`. */
  function Clamp(x: real, lo: real, hi: real): (r: real)
    requires lo <= hi
    ensures lo <= r <= hi
    ensures lo <= x <= hi ==> r == x
    ensures x < lo ==> r == lo
    ensures x > hi ==> r == hi
  {
    MaxReal(lo, MinReal(x, hi))
  }

  /** The metrics window: 24 hours by default, between one hour and fourteen days. */
  function WindowHours(query: Option<string>, number: string -> JsNumber): (r: real)
    ensures 1.0 <= r <= 336.0
    ensures query == None ==> r == 24.0
  {
    Clamp(ParseIntSafe(query, 24.0, number), 1.0, 336.0)
  }

  /** The variant page size: 40 by default, between 1 and 200. */
  function VariantLimit(query: Option<string>, number: string -> JsNumber): (r: real)
    ensures 1.0 <= r <= 200.0
    ensures query == None ==> r == 40.0
  {
    Clamp(ParseIntSafe(query, 40.0, number), 1.0, 200.0)
  }

  /** The variant page offset: 0 by default and never negative. */
  function VariantCursor(query: Option<string>, number: string -> JsNumber): (r: real)
    ensures r >= 0.0
    ensures query == None ==> r == 0.0
    ensures query.Some? && query.value != "" && number(query.value).IsFinite() && number(query.value).value >= 0.0
            ==> r == number(query.value).value
  {
    MaxReal(0.0, ParseIntSafe(query, 0.0, number))
  }

  /** A finite setting inside a clamp's range passes through it untouched. */
  lemma ClampedQueryKeepsInRange(query: string, number: string -> JsNumber)
    requires query != "" && number(query).IsFinite()
    requires 1.0 <= number(query).value <= 200.0
    ensures VariantLimit(Some(query), number) == number(query).value
    ensures WindowHours(Some(query), number) == MinReal(number(query).value, 336.0)
  {
  }

  // ---------------------------------------------------------------------------
  // Errors
  // ---------------------------------------------------------------------------

  /** `classifyError`: the first of "timeout", "auth", "db" found in an `Error`'s message decides the code. */
  function ClassifyError(error: Thrown): (code: string)
    ensures code in {"provider_timeout", "provider_auth", "db_error", "unknown_error"}
    ensures code == "provider_timeout" <==> error.ErrorInstance? && Contains(error.message, "timeout")
    ensures code == "provider_auth" <==> error.ErrorInstance? && !Contains(error.message, "timeout")
                                         && Contains(error.message, "auth")
    ensures code == "db_error" <==> error.ErrorInstance? && !Contains(error.message, "timeout")
                                    && !Contains(error.message, "auth") && Contains(error.message, "db")
    ensures error.NonErrorValue? ==> code == "unknown_error"
  {
    if error.ErrorInstance? then
      if Contains(error.message, "timeout") then "provider_timeout"
      else if Contains(error.message, "auth") then "provider_auth"
      else if Contains(error.message, "db") then "db_error"
      else "unknown_error"
    else "unknown_error"
  }

  /** An error mentioning a timeout is a provider timeout, whatever else it mentions. */
  lemma TimeoutWins(prefix: string, suffix: string, isApiError: bool)
    ensures ClassifyError(ErrorInstance(prefix + "timeout" + suffix, isApiError)) == "provider_timeout"
  {
    ContainsInfix(prefix, "timeout", suffix);
  }

  /** `toApiError`: a non-empty `Error` message, else the fallback. */
  function ToApiError(error: Thrown, fallback: string): (r: string)
    ensures error.ErrorInstance? && error.message != "" ==> r == error.message
    ensures !(error.ErrorInstance? && error.message != "") ==> r == fallback
  {
    if error.ErrorInstance? && error.message != "" then error.message else fallback
  }

  /** The fields of a parsed `error_json` object that the poll reads. */
  datatype ErrorFields = ErrorFields(message: Option<string>, code: Option<string>)

  /**
   * The `error` of a job poll: nothing for an absent or empty `error_json`;
   * its `message`, else its `code`, when it parses; the raw text when it does
   * not. `parseError` is `JSON.parse`, `None` where it throws.
   */
  function ShownError(errorJson: Option<string>, parseError: string -> Option<ErrorFields>): (r: Option<string>)
    ensures errorJson == None || errorJson == Some("") ==> r == None
    ensures errorJson.Some? && errorJson.value != "" && parseError(errorJson.value).None? ==> r == errorJson
    ensures errorJson.Some? && errorJson.value != "" && parseError(errorJson.value).Some? ==>
      var fields := parseError(errorJson.value).value;
      r == (if fields.message.Some? then fields.message else fields.code)
  {
    if errorJson.None? || errorJson.value == "" then None
    else match parseError(errorJson.value)
      case None => errorJson
      case Some(fields) => if fields.message.Some? then fields.message else fields.code
  }

  /** A job that failed every variant is shown with the message the processor stored. */
  lemma AllFailedShown(parseError: string -> Option<ErrorFields>)
    requires parseError(AllFailedJson) == Some(ErrorFields(Some("All variants failed generation"), Some("provider_timeout")))
    ensures ShownError(Some(AllFailedJson), parseError) == Some("All variants failed generation")
  {
  }

  // ---------------------------------------------------------------------------
  // Starting a generation job
  // ---------------------------------------------------------------------------

  /** Whether the request's test mode is admitted: none asked for, or the deployment enables test modes. */
  predicate TestModeAllowed(testMode: TestMode, enableTestMode: Option<string>) {
    testMode == Unset || testMode == NoTest || enableTestMode == Some("true")
  }

  /** The answer of `POST /v1/generation-jobs` up to the store writes. */
  datatype Admission = Refused(status: int, error: string) | Admitted(config: JobConfig, targetCount: real)

  /** The stored target: the request's count under the deployment's cap. */
  function StoredTarget(requested: int, cap: real): (r: real)
    ensures r <= requested as real && r <= cap
    ensures r == requested as real || r == cap
  {
    MinReal(requested as real, cap)
  }

  /**
   * What the job creation route decides, in its order: an invalid body, a
   * test mode the deployment does not allow, no session, an exhausted daily
   * quota; otherwise the request with its target capped.
   */
  function AdmissionOf(request: Option<JobConfig>, enableTestMode: Option<string>, sessionId: Option<string>,
                       usage: map<UsageKey, int>, day: string, maxJobsPerDay: int, targetCap: real): (r: Admission)
    ensures request.None? ==> r == Refused(400, "Invalid generation configuration")
    ensures request.Some? && !TestModeAllowed(request.value.testMode, enableTestMode)
            ==> r == Refused(400, "Provider test mode is disabled")
    ensures r.Admitted? <==>
              && request.Some? && TestModeAllowed(request.value.testMode, enableTestMode)
              && sessionId.Some? && sessionId.value != ""
              && CountOf(usage, UsageKey(sessionId.value, day)) < maxJobsPerDay
    ensures r.Admitted? ==> r.config == request.value && r.targetCount == StoredTarget(request.value.targetCount, targetCap)
  {
    if request.None? then Refused(400, "Invalid generation configuration")
    else if !TestModeAllowed(request.value.testMode, enableTestMode) then Refused(400, "Provider test mode is disabled")
    else if sessionId.None? || sessionId.value == "" then Refused(401, "Unauthorized")
    else if !DecideQuota(usage, UsageKey(sessionId.value, day), maxJobsPerDay).allowed then
      Refused(429, "Daily generation quota reached for this session")
    else Admitted(request.value, StoredTarget(request.value.targetCount, targetCap))
  }

  /** Whether the route gets as far as consuming quota. */
  predicate ReachesQuota(request: Option<JobConfig>, enableTestMode: Option<string>, sessionId: Option<string>) {
    request.Some? && TestModeAllowed(request.value.testMode, enableTestMode) && sessionId.Some? && sessionId.value != ""
  }

  /**
   * The checks of the job creation route against the usage table; the day
   * and the quota setting are parameters. Quota is consumed only by a request
   * that passed the earlier checks.
   */
  method AdmitGenerationJob(usage: UsageTable, request: Option<JobConfig>, enableTestMode: Option<string>,
                            sessionId: Option<string>, day: string, maxJobsPerDay: int, targetCap: real)
    returns (r: Admission)
    modifies usage
    ensures r == AdmissionOf(request, enableTestMode, sessionId, old(usage.usage), day, maxJobsPerDay, targetCap)
    ensures ReachesQuota(request, enableTestMode, sessionId)
            ==> usage.usage == QuotaAfter(old(usage.usage), UsageKey(sessionId.value, day), maxJobsPerDay)
    ensures !ReachesQuota(request, enableTestMode, sessionId) ==> usage.usage == old(usage.usage)
  {
    if request.None? {
      return Refused(400, "Invalid generation configuration");
    }
    var config := request.value;
    var testModeEnabled := enableTestMode == Some("true");
    if config.testMode != Unset && config.testMode != NoTest && !testModeEnabled {
      return Refused(400, "Provider test mode is disabled");
    }
    if sessionId.None? || sessionId.value == "" {
      return Refused(401, "Unauthorized");
    }
    var quota := usage.ConsumeDailyJobQuota(sessionId.value, day, maxJobsPerDay);
    if !quota.allowed {
      return Refused(429, "Daily generation quota reached for this session");
    }
    r := Admitted(config, MinReal(config.targetCount as real, targetCap));
  }

  /** A job stored with a test mode exists only where the deployment enables test modes. */
  lemma AdmittedTestModeEnabled(request: Option<JobConfig>, enableTestMode: Option<string>, sessionId: Option<string>,
                                usage: map<UsageKey, int>, day: string, maxJobsPerDay: int, targetCap: real)
    requires AdmissionOf(request, enableTestMode, sessionId, usage, day, maxJobsPerDay, targetCap).Admitted?
    requires request.value.testMode != Unset && request.value.testMode != NoTest
    ensures enableTestMode == Some("true")
  {
  }

  // ---------------------------------------------------------------------------
  // The queue consumer
  // ---------------------------------------------------------------------------

  /** What the consumer told the queue about message `index`. */
  datatype Settlement = Ack(index: nat) | Retry(index: nat)

  /** A delivered batch: the job id of each message, and the acks and retries sent so far. */
  class MessageBatch {
    const jobIds: seq<string>
    var settlements: seq<Settlement>

    constructor(jobIds: seq<string>)
      ensures this.jobIds == jobIds && settlements == []
    {
      this.jobIds := jobIds;
      settlements := [];
    }

    /** `message.ack()`. */
    method Ack(index: nat)
      requires index < |jobIds|
      modifies this
      ensures settlements == old(settlements) + [Settlement.Ack(index)]
    {
      settlements := settlements + [Settlement.Ack(index)];
    }

    /** `message.retry()`. */
    method Retry(index: nat)
      requires index < |jobIds|
      modifies this
      ensures settlements == old(settlements) + [Settlement.Retry(index)]
    {
      settlements := settlements + [Settlement.Retry(index)];
    }
  }

  /** The settlements for the given processing outcomes, one per message, in message order. */
  function Settlements(outcomes: seq<Outcome>): (s: seq<Settlement>)
    ensures |s| == |outcomes|
    decreases |outcomes|
  {
    if outcomes == [] then []
    else
      var last := |outcomes| - 1;
      Settlements(outcomes[..last]) + [if outcomes[last] == Returned then Settlement.Ack(last) else Settlement.Retry(last)]
  }

  /** How many settlements concern message `index`. */
  function SettledCount(s: seq<Settlement>, index: nat): nat
    decreases |s|
  {
    if s == [] then 0
    else SettledCount(s[..|s| - 1], index) + (if s[|s| - 1].index == index then 1 else 0)
  }

  /**
   * Every message is settled exactly once, and it is acked when processing
   * returned and retried when it threw.
   */
  lemma {:induction false} SettledExactlyOnce(outcomes: seq<Outcome>, index: nat)
    ensures index < |outcomes| ==> SettledCount(Settlements(outcomes), index) == 1
    ensures index >= |outcomes| ==> SettledCount(Settlements(outcomes), index) == 0
    ensures index < |outcomes| ==> Settlements(outcomes)[index].index == index
    ensures index < |outcomes| ==> (Settlements(outcomes)[index].Ack? <==> outcomes[index] == Returned)
    decreases |outcomes|
  {
    if outcomes != [] {
      var last := |outcomes| - 1;
      SettledExactlyOnce(outcomes[..last], index);
      var s := Settlements(outcomes);
      assert s[..last] == Settlements(outcomes[..last]);
      if index < last {
        assert outcomes[..last][index] == outcomes[index];
      }
    }
  }

  /** How `processGenerationJob` ends for a job in the given store. */
  function OutcomeFor(jobs: map<string, JobRecord>, jobId: string, env: Env): (o: Outcome)
    ensures o == Threw <==> Processable(jobs, jobId) && env.parseConfig(jobs[jobId].configJson).None?
  {
    if Processable(jobs, jobId) && env.parseConfig(jobs[jobId].configJson).None? then Threw else Returned
  }

  /** The job records after `processGenerationJob`: only a job it processed changes, by the pass's updates. */
  ghost function JobsAfter(jobs: map<string, JobRecord>, jobId: string, env: Env): map<string, JobRecord> {
    if Processable(jobs, jobId) && env.parseConfig(jobs[jobId].configJson).Some? then
      jobs[jobId := MergeAll(jobs[jobId], Writes(RunOf(jobs[jobId], jobId, env, env.parseConfig(jobs[jobId].configJson).value)))]
    else jobs
  }

  /** One message: process its job, then ack or retry it. */
  method SettleMessage(batch: MessageBatch, jobs: JobStore, variants: VariantStore, blobs: BlobStore, index: nat, env: Env)
    returns (outcome: Outcome)
    requires index < |batch.jobIds|
    modifies batch, jobs, variants, blobs
    ensures outcome == OutcomeFor(old(jobs.jobs), batch.jobIds[index], env)
    ensures jobs.jobs == JobsAfter(old(jobs.jobs), batch.jobIds[index], env)
    ensures batch.settlements == old(batch.settlements)
              + [if outcome == Returned then Settlement.Ack(index) else Settlement.Retry(index)]
  {
    outcome := ProcessGenerationJob(jobs, variants, blobs, batch.jobIds[index], env);
    if outcome == Returned {
      batch.Ack(index);
    } else {
      batch.Retry(index);
    }
  }

  /** The first `index` messages are settled: `seen[i]` is the job store message `i` was processed against. */
  ghost predicate SettledUpTo(batch: MessageBatch, jobs: map<string, JobRecord>, envOf: nat -> Env, index: nat,
                              outcomes: seq<Outcome>, seen: seq<map<string, JobRecord>>, start: seq<Settlement>)
    reads batch
  {
    && index <= |batch.jobIds|
    && |outcomes| == index && |seen| == index + 1
    && seen[index] == jobs
    && (forall i :: 0 <= i < index ==> Processed(seen[i], batch.jobIds[i], envOf(i), outcomes[i], seen[i + 1]))
    && batch.settlements == start + Settlements(outcomes)
  }

  /** Processing `jobId` against the store `before` gave `outcome` and left the store `after`. */
  ghost predicate Processed(before: map<string, JobRecord>, jobId: string, env: Env, outcome: Outcome, after: map<string, JobRecord>) {
    outcome == OutcomeFor(before, jobId, env) && after == JobsAfter(before, jobId, env)
  }

  /** One turn of the handler's loop. */
  method HandleStep(batch: MessageBatch, jobs: JobStore, variants: VariantStore, blobs: BlobStore, envOf: nat -> Env,
                    index: nat, outcomes: seq<Outcome>, ghost seen: seq<map<string, JobRecord>>, ghost start: seq<Settlement>)
    returns (outcomes': seq<Outcome>, ghost seen': seq<map<string, JobRecord>>)
    requires index < |batch.jobIds|
    requires SettledUpTo(batch, jobs.jobs, envOf, index, outcomes, seen, start)
    modifies batch, jobs, variants, blobs
    ensures SettledUpTo(batch, jobs.jobs, envOf, index + 1, outcomes', seen', start)
    ensures seen'[0] == seen[0]
  {
    var outcome := SettleMessage(batch, jobs, variants, blobs, index, envOf(index));
    outcomes' := outcomes + [outcome];
    seen' := seen + [jobs.jobs];
    ProcessedExtends(batch.jobIds, envOf, outcomes, seen, outcome, jobs.jobs);
    SettlementsSnoc(outcomes, outcome);
  }

  /** One more processed message extends the record of the earlier ones. */
  lemma ProcessedExtends(jobIds: seq<string>, envOf: nat -> Env, outcomes: seq<Outcome>, seen: seq<map<string, JobRecord>>,
                         outcome: Outcome, after: map<string, JobRecord>)
    requires |outcomes| < |jobIds| && |seen| == |outcomes| + 1
    requires forall i :: 0 <= i < |outcomes| ==> Processed(seen[i], jobIds[i], envOf(i), outcomes[i], seen[i + 1])
    requires Processed(seen[|outcomes|], jobIds[|outcomes|], envOf(|outcomes|), outcome, after)
    ensures var n := |outcomes| + 1;
      forall i :: 0 <= i < n ==> Processed((seen + [after])[i], jobIds[i], envOf(i), (outcomes + [outcome])[i], (seen + [after])[i + 1])
  {
    var seen', outcomes' := seen + [after], outcomes + [outcome];
    forall i | 0 <= i < |outcomes| + 1
      ensures Processed(seen'[i], jobIds[i], envOf(i), outcomes'[i], seen'[i + 1])
    {
      if i < |outcomes| {
        assert seen'[i] == seen[i] && seen'[i + 1] == seen[i + 1] && outcomes'[i] == outcomes[i];
      }
    }
  }

  /** The settlement of one more outcome comes after those of the earlier ones. */
  lemma SettlementsSnoc(outcomes: seq<Outcome>, outcome: Outcome)
    ensures Settlements(outcomes + [outcome])
            == Settlements(outcomes) + [if outcome == Returned then Settlement.Ack(|outcomes|) else Settlement.Retry(|outcomes|)]
  {
    assert (outcomes + [outcome])[..|outcomes|] == outcomes;
  }

  /**
   * The `queue` handler: the messages in order, each processed with its own
   * environment, acked when processing returned and retried when it threw.
   * `seen[i]` is the job store message `i` was processed against.
   */
  method HandleBatch(batch: MessageBatch, jobs: JobStore, variants: VariantStore, blobs: BlobStore, envOf: nat -> Env)
    returns (outcomes: seq<Outcome>, ghost seen: seq<map<string, JobRecord>>)
    modifies batch, jobs, variants, blobs
    ensures |outcomes| == |batch.jobIds| && |seen| == |batch.jobIds| + 1
    ensures seen[0] == old(jobs.jobs) && seen[|batch.jobIds|] == jobs.jobs
    ensures forall i :: 0 <= i < |batch.jobIds| ==> Processed(seen[i], batch.jobIds[i], envOf(i), outcomes[i], seen[i + 1])
    ensures batch.settlements == old(batch.settlements) + Settlements(outcomes)
  {
    outcomes := [];
    seen := [jobs.jobs];
    ghost var start := batch.settlements;
    var index := 0;
    while index < |batch.jobIds|
      invariant SettledUpTo(batch, jobs.jobs, envOf, index, outcomes, seen, start)
      invariant seen[0] == old(jobs.jobs)
      invariant start == old(batch.settlements)
    {
      outcomes, seen := HandleStep(batch, jobs, variants, blobs, envOf, index, outcomes, seen, start);
      index := index + 1;
    }
  }
}
