/**
 * The generation job processor: a queued job is loaded, marked running, and
 * then, one variant index after another, the copy and image ladders run, the
 * image is put in the asset bucket and the variant row is inserted; the job
 * ends failed when nothing was stored and completed otherwise.
 */
module Queue {
  import opened Wrappers
  import opened Strings
  import opened Providers
  import opened Db
  import CopyAdapter
  import ImageAdapter

  // ---------------------------------------------------------------------------
  // Settings and small helpers
  // ---------------------------------------------------------------------------

  /** The per-job variant cap used when `MAX_VARIANTS_PER_JOB` is absent or unusable. */
  const DefaultMaxVariants: int := 20

  /** `parseMaxVariants`: a positive integer setting is used as it is, anything else gives the default. */
  function ParseMaxVariants(setting: JsNumber): (r: int)
    ensures r >= 1
    ensures setting.IsInteger() && setting.value > 0.0 ==> r as real == setting.value
    ensures !(setting.IsInteger() && setting.value > 0.0) ==> r == DefaultMaxVariants
  {
    if setting.IsInteger() && setting.value > 0.0 then setting.value.Floor else DefaultMaxVariants
  }

  /**
   * The number of loop iterations: the requested count under the cap, never
   * below one. A request within the cap is honoured exactly.
   */
  function VariantsTarget(targetCount: int, cap: int): (n: int)
    ensures n >= 1
    ensures n <= MaxInt(1, targetCount) && n <= MaxInt(1, cap)
    ensures 1 <= targetCount <= cap ==> n == targetCount
    ensures 1 <= cap <= targetCount ==> n == cap
  {
    MaxInt(1, MinInt(targetCount, cap))
  }

  /** `extensionFromContentType`: svg wins over jpeg/jpg, and png is the default. */
  function ExtensionFromContentType(contentType: string): (e: string)
    ensures e in {"svg", "jpg", "png"}
    ensures e == "svg" <==> Contains(contentType, "svg")
    ensures e == "jpg" <==> !Contains(contentType, "svg")
                            && (Contains(contentType, "jpeg") || Contains(contentType, "jpg"))
    ensures e == "png" <==> !Contains(contentType, "svg") && !Contains(contentType, "jpeg")
                            && !Contains(contentType, "jpg")
  {
    if Contains(contentType, "svg") then "svg"
    else if Contains(contentType, "jpeg") || Contains(contentType, "jpg") then "jpg"
    else "png"
  }

  /** The fallback SVG is stored as `.svg`, and the providers' PNG as `.png`. */
  lemma AdapterContentTypesExtensions()
    ensures ExtensionFromContentType(ImageAdapter.Svg) == "svg"
    ensures ExtensionFromContentType(ImageAdapter.Png) == "png"
  {
    ContainsInfix("image/", "svg", "+xml");
    assert ImageAdapter.Svg == "image/" + "svg" + "+xml";
    assert 's' !in ImageAdapter.Png && 'j' !in ImageAdapter.Png;
    ContainsStartChar(ImageAdapter.Png, "svg");
    ContainsStartChar(ImageAdapter.Png, "jpg");
    ContainsStartChar(ImageAdapter.Png, "jpeg");
  }

  // ---------------------------------------------------------------------------
  // Confidence, in hundredths
  // ---------------------------------------------------------------------------

  /** The confidence every variant starts from: 3.6. */
  const BaselineConfidence: int := 360

  /**
   * The unclamped score: the baseline with each bonus and penalty that
   * applies to the variant. Lengths are `.length`, in UTF-16 code units.
   */
  function RawConfidence(headline: string, body: string, cta: string, providerCopy: string, providerImage: string): (score: int)
    ensures 285 <= score <= 460
  {
    BaselineConfidence
    + (if 24 < Utf16Length(headline) < 96 then 50 else 0)
    + (if Utf16Length(body) > 32 then 30 else 0)
    + (if Utf16Length(cta) > 3 then 20 else 0)
    - (if providerCopy == "fallback" then 40 else 0)
    - (if providerImage == "fallback" then 35 else 0)
  }

  /** A headline of 13 characters outside the Basic Multilingual Plane is 26 code units long, so it earns the headline bonus. */
  lemma AstralHeadlineEarnsBonus(headline: string, body: string, cta: string)
    requires |headline| == 13 && forall k :: 0 <= k < 13 ==> headline[k] as int >= 0x1_0000
    requires Utf16Length(body) <= 32 && Utf16Length(cta) <= 3
    ensures RawConfidence(headline, body, cta, "anthropic", "openai") == 410
  {
    AllAstralLength(headline);
  }

  /** `Math.max(0, Math.min(5, score))`, in hundredths. */
  function ClampConfidence(score: int): (r: int)
    ensures 0 <= r <= 500
    ensures 0 <= score <= 500 ==> r == score
  {
    MaxInt(0, MinInt(500, score))
  }

  /** `computeConfidence`: the score built up one rule at a time, then clamped. */
  method ComputeConfidence(headline: string, body: string, cta: string, providerCopy: string, providerImage: string)
    returns (score: int)
    ensures score == ClampConfidence(RawConfidence(headline, body, cta, providerCopy, providerImage))
    ensures 0 <= score <= 500
  {
    score := BaselineConfidence;
    if 24 < Utf16Length(headline) && Utf16Length(headline) < 96 {
      score := score + 50;
    }
    if Utf16Length(body) > 32 {
      score := score + 30;
    }
    if Utf16Length(cta) > 3 {
      score := score + 20;
    }
    if providerCopy == "fallback" {
      score := score - 40;
    }
    if providerImage == "fallback" {
      score := score - 35;
    }
    score := MaxInt(0, MinInt(500, score));
  }

  /** The unclamped score lies in [2.85, 4.60], so the clamp never changes it. */
  lemma ConfidenceWithinBounds(headline: string, body: string, cta: string, providerCopy: string, providerImage: string)
    ensures var raw := RawConfidence(headline, body, cta, providerCopy, providerImage);
      285 <= raw <= 460 && ClampConfidence(raw) == raw
  {
  }

  /** Other inputs equal, a fallback copy provider scores strictly lower, and so does a fallback image provider. */
  lemma FallbackLowersConfidence(headline: string, body: string, cta: string, providerCopy: string, providerImage: string)
    ensures providerCopy != "fallback" ==>
      ClampConfidence(RawConfidence(headline, body, cta, "fallback", providerImage))
      < ClampConfidence(RawConfidence(headline, body, cta, providerCopy, providerImage))
    ensures providerImage != "fallback" ==>
      ClampConfidence(RawConfidence(headline, body, cta, providerCopy, "fallback"))
      < ClampConfidence(RawConfidence(headline, body, cta, providerCopy, providerImage))
  {
  }

  /** With neither provider a fallback the score is at least the baseline 3.6. */
  lemma RemoteProvidersKeepBaseline(headline: string, body: string, cta: string, providerCopy: string, providerImage: string)
    requires providerCopy != "fallback" && providerImage != "fallback"
    ensures ClampConfidence(RawConfidence(headline, body, cta, providerCopy, providerImage)) >= BaselineConfidence
  {
  }

  // ---------------------------------------------------------------------------
  // What one processing pass depends on, and what it does at each index
  // ---------------------------------------------------------------------------

  /**
   * The worker's environment for one pass: the variant cap setting, the
   * `JSON.parse` of the stored config, the provider worlds of each index, the
   * clock reading used in each variant id, which bucket puts and row inserts
   * the stores reject, the insert times, and the two `nowIso()` readings.
   */
  datatype Env = Env(
    maxVariantsPerJob: JsNumber,
    parseConfig: string -> Option<JobConfig>,
    copyWorld: nat -> CopyAdapter.CopyWorld,
    imageWorld: nat -> ImageAdapter.ImageWorld,
    now: nat -> nat,
    blobFault: nat -> bool,
    insertFault: nat -> bool,
    insertedAt: nat -> string,
    startedAt: string,
    completedAt: string)

  /**
   * One pass over one job: its id, its campaign, its parsed config, the
   * environment, and the copy and image the two ladders give at each index.
   */
  datatype Run = Run(
    jobId: string,
    campaignId: string,
    config: JobConfig,
    env: Env,
    copyAt: nat -> CopyResult,
    imageAt: nat -> ImageResult)

  function Target(run: Run): (n: int)
    ensures n >= 1
  {
    VariantsTarget(run.config.targetCount, ParseMaxVariants(run.env.maxVariantsPerJob))
  }

  /** `var_{jobId}_{index + 1}_{Date.now()}`. */
  function VariantId(jobId: string, index: nat, millis: nat): string {
    "var_" + jobId + "_" + NatToString(index + 1) + "_" + NatToString(millis)
  }

  /** `variants/{campaign}/{variantId}.{extension}`. */
  function ImageKey(campaignId: string, variantId: string, extension: string): string {
    "variants/" + campaignId + "/" + variantId + "." + extension
  }

  function CopyAt(run: Run, i: nat): CopyResult {
    run.copyAt(i)
  }

  function ImageAt(run: Run, i: nat): ImageResult {
    run.imageAt(i)
  }

  function IdAt(run: Run, i: nat): string {
    VariantId(run.jobId, i, run.env.now(i))
  }

  function KeyAt(run: Run, i: nat): string {
    ImageKey(run.campaignId, IdAt(run, i), ExtensionFromContentType(ImageAt(run, i).contentType))
  }

  function BlobAt(run: Run, i: nat): Blob {
    Blob(ImageAt(run, i).bytes, ImageAt(run, i).contentType)
  }

  /** The variant inserted for index `i`: the copy, the image key, both providers and the confidence. */
  function VariantAt(run: Run, i: nat): NewVariant {
    var copy := CopyAt(run, i);
    var image := ImageAt(run, i);
    NewVariant(IdAt(run, i), run.campaignId, run.jobId, copy.headline, copy.body, copy.cta, Some(KeyAt(run, i)),
               copy.provider.Name(), image.provider.Name(),
               ClampConfidence(RawConfidence(copy.headline, copy.body, copy.cta, copy.provider.Name(), image.provider.Name())),
               Pending, true)
  }

  function RowAt(run: Run, i: nat): VariantRow {
    VariantRowOf(VariantAt(run, i), run.env.insertedAt(i))
  }

  /** Index `i` ends with a stored variant: both the bucket put and the row insert went through. */
  predicate StoredAt(run: Run, i: nat) {
    !run.env.blobFault(i) && !run.env.insertFault(i)
  }

  /** The rows inserted by the first `k` iterations, in order. */
  function RowsUpTo(run: Run, k: nat): (rows: seq<VariantRow>)
    ensures |rows| <= k
  {
    if k == 0 then []
    else RowsUpTo(run, k - 1) + (if StoredAt(run, k - 1) then [RowAt(run, k - 1)] else [])
  }

  /** The bucket after the first `k` iterations: every put that went through, in order. */
  function BlobsUpTo(run: Run, k: nat, base: map<string, Blob>): map<string, Blob> {
    if k == 0 then base
    else
      var before := BlobsUpTo(run, k - 1, base);
      if run.env.blobFault(k - 1) then before else before[KeyAt(run, k - 1) := BlobAt(run, k - 1)]
  }

  // ---------------------------------------------------------------------------
  // The job updates of one pass
  // ---------------------------------------------------------------------------

  const StartStage: string := "Building prompt context"
  const StartProgress: int := 5

  /** The update that marks the job running. */
  function StartPatch(startedAt: string): JobPatch {
    JobPatch(Running, Some(StartProgress), Some(StartStage), None, Some(startedAt), None)
  }

  /** The progress reported at index `i` of `n`: the share of indices reached, scaled to 90. */
  function Progress(i: nat, n: nat): int
    requires n >= 1
  {
    ((i + 1) * 90) / n
  }

  /** The stage label at index `i`: visuals on even indices, copy on odd ones. */
  function Stage(i: nat): string {
    if i % 2 == 0 then "Generating visuals" else "Writing copy variants"
  }

  function LoopPatch(i: nat, n: nat): JobPatch
    requires n >= 1
  {
    JobPatch(Running, Some(Progress(i, n)), Some(Stage(i)), None, None, None)
  }

  /** The updates of the first `k` iterations. */
  function LoopPatches(k: nat, n: nat): (ps: seq<JobPatch>)
    requires n >= 1
    ensures |ps| == k
  {
    if k == 0 then [] else LoopPatches(k - 1, n) + [LoopPatch(k - 1, n)]
  }

  /** `JSON.stringify` of the total-failure error. */
  const AllFailedJson: string := "{\"code\":\"provider_timeout\",\"message\":\"All variants failed generation\"}"

  /** `JSON.stringify` of the partial-failure error with both counts. */
  function PartialFailureJson(generatedCount: nat, failureCount: nat): string {
    "{\"code\":\"partial_failure\",\"generatedCount\":" + NatToString(generatedCount)
    + ",\"failureCount\":" + NatToString(failureCount) + "}"
  }

  /** The closing update: failed when nothing was stored, completed otherwise, with the counts when some failed. */
  function FinalPatch(generatedCount: nat, failureCount: nat, completedAt: string): JobPatch {
    if generatedCount == 0 then
      JobPatch(Failed, Some(100), Some("Failed"), Some(AllFailedJson), None, Some(completedAt))
    else
      JobPatch(Completed, Some(100), Some("Completed"),
               if failureCount > 0 then Some(PartialFailureJson(generatedCount, failureCount)) else None,
               None, Some(completedAt))
  }

  /** The start update and the updates of the first `k` iterations. */
  function PassPrefix(startedAt: string, k: nat, n: nat): seq<JobPatch>
    requires n >= 1
  {
    [StartPatch(startedAt)] + LoopPatches(k, n)
  }

  /** Every update one full pass writes, in order. */
  function Writes(run: Run): seq<JobPatch> {
    var n := Target(run);
    var g := |RowsUpTo(run, n)|;
    PassPrefix(run.env.startedAt, n, n) + [FinalPatch(g, n - g, run.env.completedAt)]
  }

  // ---------------------------------------------------------------------------
  // The processor
  // ---------------------------------------------------------------------------

  /** How `processGenerationJob` ends: it returns, or it throws (the stored config is not JSON). */
  datatype Outcome = Returned | Threw

  /** The job is there and not yet completed or failed. */
  predicate Processable(jobs: map<string, JobRecord>, jobId: string) {
    jobId in jobs && !jobs[jobId].status.IsTerminal()
  }

  /** The copy and image of each index are what the two ladders give for it. */
  ghost predicate LaddersOf(run: Run) {
    && (forall i: nat {:trigger CopyAdapter.CopyLadder(run.config, i, run.env.copyWorld(i))} ::
          run.copyAt(i) == CopyAdapter.CopyLadder(run.config, i, run.env.copyWorld(i)).result)
    && (forall i: nat {:trigger ImageAdapter.ImageLadder(run.config, i, run.env.imageWorld(i))} ::
          run.imageAt(i) == ImageAdapter.ImageLadder(run.config, i, run.env.imageWorld(i)).result)
  }

  /** The pass a processable job with a readable config gets. */
  function RunOf(job: JobRecord, jobId: string, env: Env, config: JobConfig): (run: Run)
    ensures run.jobId == jobId && run.campaignId == job.campaignId && run.config == config && run.env == env
    ensures LaddersOf(run)
  {
    Run(jobId, job.campaignId, config, env,
        (i: nat) => CopyAdapter.CopyLadder(config, i, env.copyWorld(i)).result,
        (i: nat) => ImageAdapter.ImageLadder(config, i, env.imageWorld(i)).result)
  }

  /** The `Promise.all` of one index: the copy ladder and the image ladder (one after the other here). */
  method GenerateVariantPair(run: Run, index: nat) returns (copy: CopyResult, image: ImageResult)
    requires LaddersOf(run)
    ensures copy == CopyAt(run, index) && image == ImageAt(run, index)
  {
    var copyCalls, imageCalls;
    copy, copyCalls := CopyAdapter.GenerateCopyVariant(run.config, index, run.env.copyWorld(index));
    image, imageCalls := ImageAdapter.GenerateImageVariant(run.config, index, run.env.imageWorld(index));
  }

  /**
   * The `try` block for one index: both ladders, the bucket put, the
   * confidence and the row insert. A rejected put or insert is caught and
   * reported as `false`; after a rejected put there is no insert.
   */
  method GenerateAndStore(variants: VariantStore, blobs: BlobStore, run: Run, index: nat) returns (stored: bool)
    requires LaddersOf(run)
    modifies variants, blobs
    ensures stored == StoredAt(run, index)
    ensures blobs.blobs == if run.env.blobFault(index) then old(blobs.blobs)
                           else old(blobs.blobs)[KeyAt(run, index) := BlobAt(run, index)]
    ensures variants.rows == if StoredAt(run, index) then old(variants.rows) + [RowAt(run, index)]
                             else old(variants.rows)
  {
    var copy, image := GenerateVariantPair(run, index);
    var variantId := VariantId(run.jobId, index, run.env.now(index));
    var extension := ExtensionFromContentType(image.contentType);
    var imageKey := ImageKey(run.campaignId, variantId, extension);

    var put := blobs.Put(imageKey, Blob(image.bytes, image.contentType), run.env.blobFault(index));
    if !put {
      return false;
    }
    var confidence := ComputeConfidence(copy.headline, copy.body, copy.cta, copy.provider.Name(), image.provider.Name());
    stored := variants.Insert(
      NewVariant(variantId, run.campaignId, run.jobId, copy.headline, copy.body, copy.cta, Some(imageKey),
                 copy.provider.Name(), image.provider.Name(), confidence, Pending, true),
      run.env.insertedAt(index), run.env.insertFault(index));
  }

  /** One iteration's generation and storage, stated against the rows and bucket of the iterations before it. */
  method GenerateStep(variants: VariantStore, blobs: BlobStore, run: Run, index: nat,
                      ghost baseRows: seq<VariantRow>, ghost baseBlobs: map<string, Blob>) returns (stored: bool)
    requires LaddersOf(run)
    requires variants.rows == baseRows + RowsUpTo(run, index)
    requires blobs.blobs == BlobsUpTo(run, index, baseBlobs)
    modifies variants, blobs
    ensures variants.rows == baseRows + RowsUpTo(run, index + 1)
    ensures blobs.blobs == BlobsUpTo(run, index + 1, baseBlobs)
    ensures |RowsUpTo(run, index + 1)| == |RowsUpTo(run, index)| + (if stored then 1 else 0)
  {
    stored := GenerateAndStore(variants, blobs, run, index);
    assert baseRows + RowsUpTo(run, index + 1)
        == (baseRows + RowsUpTo(run, index)) + (if StoredAt(run, index) then [RowAt(run, index)] else []);
  }

  /** The start update: the job becomes running at progress 5. */
  method ReportStart(jobs: JobStore, job: JobRecord, jobId: string, startedAt: string, n: nat)
    requires n >= 1 && jobId in jobs.jobs && jobs.jobs[jobId] == job
    modifies jobs
    ensures jobs.jobs == old(jobs.jobs)[jobId := MergeAll(job, PassPrefix(startedAt, 0, n))]
    ensures jobs.writes == old(jobs.writes) + PassPrefix(startedAt, 0, n)
  {
    jobs.Update(jobId, StartPatch(startedAt));
    MergeAllSnoc(job, [], StartPatch(startedAt));
    assert PassPrefix(startedAt, 0, n) == [] + [StartPatch(startedAt)];
  }

  /** The progress update at the head of iteration `index`. */
  method ReportProgress(jobs: JobStore, job: JobRecord, jobId: string, startedAt: string, index: nat, n: nat,
                        ghost before: map<string, JobRecord>, ghost log: seq<JobPatch>)
    requires n >= 1
    requires jobs.jobs == before[jobId := MergeAll(job, PassPrefix(startedAt, index, n))]
    requires jobs.writes == log + PassPrefix(startedAt, index, n)
    modifies jobs
    ensures jobs.jobs == before[jobId := MergeAll(job, PassPrefix(startedAt, index + 1, n))]
    ensures jobs.writes == log + PassPrefix(startedAt, index + 1, n)
  {
    jobs.Update(jobId, LoopPatch(index, n));
    MergeAllSnoc(job, PassPrefix(startedAt, index, n), LoopPatch(index, n));
    assert PassPrefix(startedAt, index, n) + [LoopPatch(index, n)] == PassPrefix(startedAt, index + 1, n);
  }

  /** The closing update: failed with the total-failure error when nothing was stored, completed otherwise. */
  method ReportOutcome(jobs: JobStore, job: JobRecord, jobId: string, startedAt: string, completedAt: string, n: nat,
                       generatedCount: nat, failureCount: nat,
                       ghost before: map<string, JobRecord>, ghost log: seq<JobPatch>)
    requires n >= 1
    requires jobs.jobs == before[jobId := MergeAll(job, PassPrefix(startedAt, n, n))]
    requires jobs.writes == log + PassPrefix(startedAt, n, n)
    modifies jobs
    ensures jobs.jobs == before[jobId := MergeAll(job, PassPrefix(startedAt, n, n) + [FinalPatch(generatedCount, failureCount, completedAt)])]
    ensures jobs.writes == log + (PassPrefix(startedAt, n, n) + [FinalPatch(generatedCount, failureCount, completedAt)])
  {
    var closing;
    if generatedCount == 0 {
      closing := JobPatch(Failed, Some(100), Some("Failed"), Some(AllFailedJson), None, Some(completedAt));
    } else {
      closing := JobPatch(Completed, Some(100), Some("Completed"),
                          if failureCount > 0 then Some(PartialFailureJson(generatedCount, failureCount)) else None,
                          None, Some(completedAt));
    }
    jobs.Update(jobId, closing);
    MergeAllSnoc(job, PassPrefix(startedAt, n, n), closing);
  }

  /** What a pass has done after `index` iterations: the rows, the bucket, the two counts and the job updates. */
  ghost predicate PassedUpTo(jobs: JobStore, variants: VariantStore, blobs: BlobStore, job: JobRecord, run: Run, index: nat,
                             generatedCount: nat, failureCount: nat,
                             before: map<string, JobRecord>, log: seq<JobPatch>,
                             baseRows: seq<VariantRow>, baseBlobs: map<string, Blob>)
    reads jobs, variants, blobs
  {
    && index <= Target(run)
    && variants.rows == baseRows + RowsUpTo(run, index)
    && blobs.blobs == BlobsUpTo(run, index, baseBlobs)
    && generatedCount == |RowsUpTo(run, index)| && generatedCount + failureCount == index
    && jobs.writes == log + PassPrefix(run.env.startedAt, index, Target(run))
    && jobs.jobs == before[run.jobId := MergeAll(job, PassPrefix(run.env.startedAt, index, Target(run)))]
  }

  /** One iteration of the loop: the progress update, then the variant's generation and storage. */
  method PassStep(jobs: JobStore, variants: VariantStore, blobs: BlobStore, job: JobRecord, run: Run, index: nat,
                  generatedCount: nat, failureCount: nat,
                  ghost before: map<string, JobRecord>, ghost log: seq<JobPatch>,
                  ghost baseRows: seq<VariantRow>, ghost baseBlobs: map<string, Blob>)
    returns (generated: nat, failed: nat)
    requires LaddersOf(run) && index < Target(run)
    requires PassedUpTo(jobs, variants, blobs, job, run, index, generatedCount, failureCount, before, log, baseRows, baseBlobs)
    modifies jobs, variants, blobs
    ensures PassedUpTo(jobs, variants, blobs, job, run, index + 1, generated, failed, before, log, baseRows, baseBlobs)
  {
    ReportProgress(jobs, job, run.jobId, run.env.startedAt, index, Target(run), before, log);
    var stored := GenerateStep(variants, blobs, run, index, baseRows, baseBlobs);
    if stored {
      generated, failed := generatedCount + 1, failureCount;
    } else {
      generated, failed := generatedCount, failureCount + 1;
    }
  }

  /** The updates of a pass, for the counts its loop reaches: the prefix, then the closing update. */
  lemma WritesSplit(run: Run, generatedCount: nat, failureCount: nat)
    requires generatedCount == |RowsUpTo(run, Target(run))| && generatedCount + failureCount == Target(run)
    ensures Writes(run) == PassPrefix(run.env.startedAt, Target(run), Target(run))
                           + [FinalPatch(generatedCount, failureCount, run.env.completedAt)]
  {
  }

  /** The loop of a pass, from the state after the start update to the state after the last index. */
  method RunLoop(jobs: JobStore, variants: VariantStore, blobs: BlobStore, job: JobRecord, run: Run,
                 ghost before: map<string, JobRecord>, ghost log: seq<JobPatch>,
                 ghost baseRows: seq<VariantRow>, ghost baseBlobs: map<string, Blob>)
    returns (generatedCount: nat, failureCount: nat)
    requires LaddersOf(run)
    requires PassedUpTo(jobs, variants, blobs, job, run, 0, 0, 0, before, log, baseRows, baseBlobs)
    modifies jobs, variants, blobs
    ensures PassedUpTo(jobs, variants, blobs, job, run, Target(run), generatedCount, failureCount, before, log, baseRows, baseBlobs)
  {
    var variantsTarget := VariantsTarget(run.config.targetCount, ParseMaxVariants(run.env.maxVariantsPerJob));
    generatedCount, failureCount := 0, 0;
    var index := 0;
    while index < variantsTarget
      invariant index <= variantsTarget
      invariant PassedUpTo(jobs, variants, blobs, job, run, index, generatedCount, failureCount, before, log, baseRows, baseBlobs)
    {
      generatedCount, failureCount := PassStep(jobs, variants, blobs, job, run, index, generatedCount, failureCount,
                                               before, log, baseRows, baseBlobs);
      index := index + 1;
    }
  }

  /**
   * The part of `processGenerationJob` after the config is read: the start
   * update, the loop over the indices, and the closing update.
   */
  method RunPass(jobs: JobStore, variants: VariantStore, blobs: BlobStore, job: JobRecord, run: Run)
    requires LaddersOf(run)
    requires run.jobId in jobs.jobs && jobs.jobs[run.jobId] == job
    modifies jobs, variants, blobs
    ensures variants.rows == old(variants.rows) + RowsUpTo(run, Target(run))
    ensures blobs.blobs == BlobsUpTo(run, Target(run), old(blobs.blobs))
    ensures jobs.writes == old(jobs.writes) + Writes(run)
    ensures jobs.jobs == old(jobs.jobs)[run.jobId := MergeAll(job, Writes(run))]
  {
    ghost var before, log, baseRows, baseBlobs := jobs.jobs, jobs.writes, variants.rows, blobs.blobs;
    var variantsTarget := VariantsTarget(run.config.targetCount, ParseMaxVariants(run.env.maxVariantsPerJob));
    ReportStart(jobs, job, run.jobId, run.env.startedAt, variantsTarget);
    var generatedCount, failureCount := RunLoop(jobs, variants, blobs, job, run, before, log, baseRows, baseBlobs);
    WritesSplit(run, generatedCount, failureCount);
    ReportOutcome(jobs, job, run.jobId, run.env.startedAt, run.env.completedAt, variantsTarget,
                  generatedCount, failureCount, before, log);
  }

  /**
   * `processGenerationJob`. A missing or finished job is left alone, and so
   * is everything else. A config that does not parse throws before any write.
   * Otherwise the job gets the start update, one update per index, and the
   * closing update; the bucket gets every put that went through, and the
   * variant table every row whose put and insert both went through.
   */
  method ProcessGenerationJob(jobs: JobStore, variants: VariantStore, blobs: BlobStore, jobId: string, env: Env)
    returns (outcome: Outcome)
    modifies jobs, variants, blobs
    ensures !Processable(old(jobs.jobs), jobId) ==>
      outcome == Returned && unchanged(jobs) && unchanged(variants) && unchanged(blobs)
    ensures Processable(old(jobs.jobs), jobId) && env.parseConfig(old(jobs.jobs)[jobId].configJson).None? ==>
      outcome == Threw && unchanged(jobs) && unchanged(variants) && unchanged(blobs)
    ensures Processable(old(jobs.jobs), jobId) && env.parseConfig(old(jobs.jobs)[jobId].configJson).Some? ==>
      var job := old(jobs.jobs)[jobId];
      var run := RunOf(job, jobId, env, env.parseConfig(job.configJson).value);
      && outcome == Returned
      && variants.rows == old(variants.rows) + RowsUpTo(run, Target(run))
      && blobs.blobs == BlobsUpTo(run, Target(run), old(blobs.blobs))
      && jobs.writes == old(jobs.writes) + Writes(run)
      && jobs.jobs == old(jobs.jobs)[jobId := MergeAll(job, Writes(run))]
  {
    var found := jobs.Get(jobId);
    if found.None? {
      return Returned;
    }
    var job := found.value;
    if job.status.IsTerminal() {
      return Returned;
    }
    var parsed := env.parseConfig(job.configJson);
    if parsed.None? {
      return Threw;
    }
    var run := RunOf(job, jobId, env, parsed.value);
    RunPass(jobs, variants, blobs, job, run);
    return Returned;
  }

  // ---------------------------------------------------------------------------
  // What a pass guarantees
  // ---------------------------------------------------------------------------

  /** The loop's progress stays within [0, 90], never goes down, and reaches 90 at the last index. */
  lemma DivMonotone(a: nat, b: nat, n: nat)
    requires n >= 1 && a <= b
    ensures a / n <= b / n
  {
    var qa, qb := a / n, b / n;
    assert qa * n <= a;
    assert b < qb * n + n;
    assert (qa - qb - 1) * n == qa * n - qb * n - n;
    assert (qa - qb - 1) * n < 0;
  }

  lemma MultipleDiv(n: nat, c: nat)
    requires n >= 1
    ensures (n * c) / n == c
  {
    var q := (n * c) / n;
    assert q * n <= n * c < q * n + n;
    assert (q - c) * n == q * n - c * n;
    assert (q - c) * n <= 0;
    assert (c - q - 1) * n == c * n - q * n - n;
    assert (c - q - 1) * n < 0;
  }

  lemma ProgressShape(i: nat, j: nat, n: nat)
    requires n >= 1 && i <= j < n
    ensures 0 <= Progress(i, n) <= Progress(j, n) <= 90
    ensures Progress(n - 1, n) == 90
  {
    DivMonotone((i + 1) * 90, (j + 1) * 90, n);
    DivMonotone((j + 1) * 90, n * 90, n);
    MultipleDiv(n, 90);
  }

  /** The first loop update reports less than the start update's 5 exactly when there are 19 or more indices. */
  lemma FirstProgressDips(n: nat)
    requires n >= 1
    ensures Progress(0, n) < StartProgress <==> n >= 19
  {
    if n >= 19 {
      assert 90 < 5 * n;
    } else {
      assert 5 * n <= 90;
    }
  }

  lemma {:induction false} LoopPatchesAt(k: nat, n: nat, i: nat)
    requires n >= 1 && i < k
    ensures LoopPatches(k, n)[i] == LoopPatch(i, n)
  {
    if i < k - 1 {
      LoopPatchesAt(k - 1, n, i);
    }
  }

  /**
   * The updates of a pass: the start update, one running update per index
   * with its progress and stage, and a closing update at 100. After the
   * start, progress never goes down; it only dips below the start's 5, at
   * the first index, when there are 19 or more indices.
   */
  lemma PassUpdatesOrder(startedAt: string, n: nat, closing: JobPatch)
    requires n >= 1 && closing.progress == Some(100)
    ensures var w := [StartPatch(startedAt)] + LoopPatches(n, n) + [closing];
      && |w| == n + 2 && w[0] == StartPatch(startedAt) && w[n + 1] == closing
      && (forall i :: 1 <= i <= n ==> w[i] == LoopPatch(i - 1, n))
      && (forall a, b :: 1 <= a <= b < |w| ==> w[a].progress.Some? && w[b].progress.Some? && w[a].progress.value <= w[b].progress.value)
      && (w[1].progress.value < StartProgress <==> n >= 19)
  {
    var w := [StartPatch(startedAt)] + LoopPatches(n, n) + [closing];
    forall i | 1 <= i <= n
      ensures w[i] == LoopPatch(i - 1, n)
    {
      LoopPatchesAt(n, n, i - 1);
    }
    forall a, b | 1 <= a <= b < |w|
      ensures w[a].progress.Some? && w[b].progress.Some? && w[a].progress.value <= w[b].progress.value
    {
      if b <= n {
        ProgressShape(a - 1, b - 1, n);
      } else if a <= n {
        ProgressShape(a - 1, n - 1, n);
      }
    }
    FirstProgressDips(n);
  }

  /** The updates a full pass writes: in the order above, ending in a completed or failed status. */
  lemma WritesOrder(run: Run)
    ensures var w := Writes(run); var n := Target(run);
      && |w| == n + 2
      && w[0] == StartPatch(run.env.startedAt)
      && (forall i :: 1 <= i <= n ==> w[i] == LoopPatch(i - 1, n))
      && w[n + 1].status.IsTerminal() && w[n + 1].progress == Some(100)
      && (forall a, b :: 1 <= a <= b < |w| ==> w[a].progress.Some? && w[b].progress.Some? && w[a].progress.value <= w[b].progress.value)
      && (w[1].progress.value < StartProgress <==> n >= 19)
  {
    var n := Target(run);
    var g := |RowsUpTo(run, n)|;
    PassUpdatesOrder(run.env.startedAt, n, FinalPatch(g, n - g, run.env.completedAt));
  }

  /** The shape of every row a pass inserts. */
  predicate WellFormedRow(run: Run, r: VariantRow) {
    && r.status == Pending && r.aiGenerated == 1
    && r.jobId == run.jobId && r.campaignId == run.campaignId
    && r.imageKey.Some? && 285 <= r.confidence <= 460
  }

  /** Every row a pass inserts is a pending, AI-generated variant of this job and campaign, with an image key and a confidence in [2.85, 4.60]. */
  lemma {:induction false} StoredRowsShape(run: Run, k: nat)
    ensures forall r :: r in RowsUpTo(run, k) ==> WellFormedRow(run, r)
  {
    if k > 0 {
      StoredRowsShape(run, k - 1);
      var copy := CopyAt(run, k - 1);
      ConfidenceWithinBounds(copy.headline, copy.body, copy.cta, copy.provider.Name(), ImageAt(run, k - 1).provider.Name());
    }
  }

  /** No decimal rendering contains the separator `_`. */
  lemma NoUnderscoreInNumber(n: nat)
    ensures '_' !in NatToString(n)
  {
    var s := NatToString(n);
    assert forall k :: 0 <= k < |s| ==> IsDigit(s[k]);
  }

  lemma Regroup(p: string, x: string, m: string, t: string)
    ensures p + x + "_" + m + t == p + (x + ['_'] + (m + t))
  {
  }

  /** A variant id, whatever follows it, gives back the index it was made for. */
  lemma VariantIdIndex(jobId: string, i: nat, j: nat, mi: nat, mj: nat, ti: string, tj: string)
    requires VariantId(jobId, i, mi) + ti == VariantId(jobId, j, mj) + tj
    ensures i == j
  {
    var p := "var_" + jobId + "_";
    var ni := NatToString(i + 1);
    var nj := NatToString(j + 1);
    var ri := NatToString(mi) + ti;
    var rj := NatToString(mj) + tj;
    Regroup(p, ni, NatToString(mi), ti);
    Regroup(p, nj, NatToString(mj), tj);
    CommonHead(p, ni + ['_'] + ri, nj + ['_'] + rj);
    NoUnderscoreInNumber(i + 1);
    NoUnderscoreInNumber(j + 1);
    SeparatedHeads(ni, nj, ri, rj, '_');
    NatToStringInjective(i + 1, j + 1);
  }

  /** An image key, whatever its extension, gives back the index of its variant id. */
  lemma ImageKeyIndex(campaignId: string, jobId: string, i: nat, j: nat, mi: nat, mj: nat, ei: string, ej: string)
    requires ImageKey(campaignId, VariantId(jobId, i, mi), ei) == ImageKey(campaignId, VariantId(jobId, j, mj), ej)
    ensures i == j
  {
    var p := "variants/" + campaignId + "/";
    var idi := VariantId(jobId, i, mi);
    var idj := VariantId(jobId, j, mj);
    assert ImageKey(campaignId, idi, ei) == p + (idi + ("." + ei));
    assert ImageKey(campaignId, idj, ej) == p + (idj + ("." + ej));
    CommonHead(p, idi + ("." + ei), idj + ("." + ej));
    VariantIdIndex(jobId, i, j, mi, mj, "." + ei, "." + ej);
  }

  /** Different indices of a pass get different variant ids and different image keys. */
  lemma KeysDistinct(run: Run, i: nat, j: nat)
    requires i != j
    ensures IdAt(run, i) != IdAt(run, j)
    ensures KeyAt(run, i) != KeyAt(run, j)
  {
    if IdAt(run, i) == IdAt(run, j) {
      assert IdAt(run, i) + "" == IdAt(run, j) + "";
      VariantIdIndex(run.jobId, i, j, run.env.now(i), run.env.now(j), "", "");
    }
    if KeyAt(run, i) == KeyAt(run, j) {
      ImageKeyIndex(run.campaignId, run.jobId, i, j, run.env.now(i), run.env.now(j),
                    ExtensionFromContentType(ImageAt(run, i).contentType),
                    ExtensionFromContentType(ImageAt(run, j).contentType));
    }
  }

  /** A later put does not overwrite the image of an earlier index. */
  lemma PutBlobStep(run: Run, k: nat, base: map<string, Blob>, i: nat)
    requires i < k - 1 && !run.env.blobFault(i)
    requires KeyAt(run, i) in BlobsUpTo(run, k - 1, base) && BlobsUpTo(run, k - 1, base)[KeyAt(run, i)] == BlobAt(run, i)
    ensures KeyAt(run, i) in BlobsUpTo(run, k, base) && BlobsUpTo(run, k, base)[KeyAt(run, i)] == BlobAt(run, i)
  {
    if !run.env.blobFault(k - 1) {
      KeysDistinct(run, i, k - 1);
    }
  }

  /** Each put that went through is in the bucket at the end, under its key and with its image; later puts never overwrite it. */
  lemma {:induction false} PutBlobSurvives(run: Run, k: nat, base: map<string, Blob>, i: nat)
    requires i < k && !run.env.blobFault(i)
    ensures KeyAt(run, i) in BlobsUpTo(run, k, base)
    ensures BlobsUpTo(run, k, base)[KeyAt(run, i)] == BlobAt(run, i)
  {
    if i < k - 1 {
      PutBlobSurvives(run, k - 1, base, i);
      PutBlobStep(run, k, base, i);
    }
  }

  /** Every inserted row's image key names an object in the bucket. */
  lemma {:induction false} RowKeysInBucket(run: Run, k: nat, base: map<string, Blob>)
    ensures forall r :: r in RowsUpTo(run, k) ==> r.imageKey.Some? && r.imageKey.value in BlobsUpTo(run, k, base)
  {
    if k > 0 {
      RowKeysInBucket(run, k - 1, base);
    }
  }

  /** Each index whose put and insert both went through has its row in the table, naming its own image in the bucket. */
  lemma {:induction false} StoredRowsHaveImages(run: Run, k: nat, base: map<string, Blob>, i: nat)
    requires i < k && StoredAt(run, i)
    ensures RowAt(run, i) in RowsUpTo(run, k)
    ensures RowAt(run, i).imageKey == Some(KeyAt(run, i))
    ensures KeyAt(run, i) in BlobsUpTo(run, k, base)
    ensures BlobsUpTo(run, k, base)[KeyAt(run, i)] == BlobAt(run, i)
  {
    PutBlobSurvives(run, k, base, i);
    if i < k - 1 {
      StoredRowsHaveImages(run, k - 1, base, i);
    }
  }

  /** A row appended after index `i` was rejected does not refer to `i`'s image either. */
  lemma NoRowForKeyStep(run: Run, k: nat, i: nat)
    requires k > 0 && !StoredAt(run, i)
    requires forall r :: r in RowsUpTo(run, k - 1) ==> r.imageKey != Some(KeyAt(run, i))
    ensures forall r :: r in RowsUpTo(run, k) ==> r.imageKey != Some(KeyAt(run, i))
  {
    if StoredAt(run, k - 1) {
      KeysDistinct(run, i, k - 1);
    }
  }

  /** No row refers to the image of index `i` when the insert of `i` was rejected. */
  lemma {:induction false} NoRowForKey(run: Run, k: nat, i: nat)
    requires !StoredAt(run, i)
    ensures forall r :: r in RowsUpTo(run, k) ==> r.imageKey != Some(KeyAt(run, i))
  {
    if k > 0 {
      NoRowForKey(run, k - 1, i);
      NoRowForKeyStep(run, k, i);
    }
  }

  /**
   * The put happens before the insert and is not undone: when the insert of
   * index `i` is rejected, its image stays in the bucket and no row refers to it.
   */
  lemma RejectedInsertLeavesImage(run: Run, k: nat, base: map<string, Blob>, i: nat)
    requires i < k && !run.env.blobFault(i) && run.env.insertFault(i)
    ensures KeyAt(run, i) in BlobsUpTo(run, k, base)
    ensures forall r :: r in RowsUpTo(run, k) ==> r.imageKey != Some(KeyAt(run, i))
  {
    PutBlobSurvives(run, k, base, i);
    NoRowForKey(run, k, i);
  }

  /** The record after some loop updates: running at the last index's progress and stage, the rest untouched. */
  lemma {:induction false} MergeLoopPatches(current: JobRecord, k: nat, n: nat)
    requires n >= 1
    ensures var r := MergeAll(current, LoopPatches(k, n));
      && r.errorJson == current.errorJson && r.startedAt == current.startedAt
      && r.completedAt == current.completedAt
      && (k == 0 ==> r == current)
      && (k > 0 ==> r.status == Running && r.progress == Progress(k - 1, n) && r.stage == Stage(k - 1))
  {
    if k > 0 {
      MergeLoopPatches(current, k - 1, n);
      MergeAllSnoc(current, LoopPatches(k - 1, n), LoopPatch(k - 1, n));
    }
  }

  /** The record after the start update and the loop updates: started, with error and completion untouched. */
  lemma MergeStartAndLoop(job: JobRecord, startedAt: string, n: nat)
    requires n >= 1
    ensures var m := MergeAll(job, [StartPatch(startedAt)] + LoopPatches(n, n));
      && m.id == job.id && m.campaignId == job.campaignId && m.createdAt == job.createdAt
      && m.errorJson == job.errorJson && m.startedAt == Some(startedAt) && m.completedAt == job.completedAt
  {
    var start := StartPatch(startedAt);
    MergeAllSnoc(job, [], start);
    MergeAllAppend(job, [start], LoopPatches(n, n));
    MergeLoopPatches(MergeJob(job, start), n, n);
    MergeAllKeepsIdentity(job, [start] + LoopPatches(n, n));
  }

  /**
   * The job at the end of a pass of `n` indices of which `g` were stored:
   * progress 100, started and completed at the pass's two readings; failed
   * with `provider_timeout` when nothing was stored; completed otherwise,
   * with a `partial_failure` error carrying both counts exactly when some
   * index failed. A clean pass writes a null error, which keeps whatever
   * error the record held.
   */
  lemma FinalRecord(job: JobRecord, startedAt: string, completedAt: string, n: nat, g: nat)
    requires 1 <= n && g <= n
    ensures var r := MergeAll(job, PassPrefix(startedAt, n, n) + [FinalPatch(g, n - g, completedAt)]);
      && r.id == job.id && r.campaignId == job.campaignId && r.createdAt == job.createdAt
      && r.progress == 100
      && r.startedAt == Some(startedAt) && r.completedAt == Some(completedAt)
      && (g == 0 <==> r.status == Failed)
      && (g == 0 ==> r.stage == "Failed" && r.errorJson == Some(AllFailedJson))
      && (g > 0 <==> r.status == Completed)
      && (g > 0 ==> r.stage == "Completed")
      && (0 < g < n ==> r.errorJson == Some(PartialFailureJson(g, n - g)))
      && (g == n ==> r.errorJson == job.errorJson)
  {
    MergeStartAndLoop(job, startedAt, n);
    MergeAllSnoc(job, PassPrefix(startedAt, n, n), FinalPatch(g, n - g, completedAt));
  }

  /** The job at the end of a pass, for the counts the pass itself reaches. */
  lemma FinalJob(job: JobRecord, run: Run)
    ensures var r := MergeAll(job, Writes(run));
      var n := Target(run);
      var g := |RowsUpTo(run, n)|;
      && r.progress == 100
      && r.startedAt == Some(run.env.startedAt) && r.completedAt == Some(run.env.completedAt)
      && (g == 0 <==> r.status == Failed)
      && (0 < g < n ==> r.errorJson == Some(PartialFailureJson(g, n - g)))
      && (g == n ==> r.errorJson == job.errorJson)
  {
    var n := Target(run);
    var g := |RowsUpTo(run, n)|;
    WritesSplit(run, g, n - g);
    FinalRecord(job, run.env.startedAt, run.env.completedAt, n, g);
  }

  /** The indices below `k` whose put or insert was rejected: the ones the catch block counts. */
  function FailuresUpTo(run: Run, k: nat): nat {
    if k == 0 then 0 else FailuresUpTo(run, k - 1) + (if StoredAt(run, k - 1) then 0 else 1)
  }

  /** Every index is counted once, as generated or as failed. */
  lemma {:induction false} CountsAddUp(run: Run, k: nat)
    ensures |RowsUpTo(run, k)| + FailuresUpTo(run, k) == k
  {
    if k > 0 {
      CountsAddUp(run, k - 1);
    }
  }
}
