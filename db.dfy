/**
 * The generation worker's records in D1 and R2, as in-memory stores: the
 * job table, the variant table and the blob bucket, with the record merge
 * and the query shapes the worker builds.
 */
module Db {
  import opened Wrappers
  import opened Strings
  import opened Providers

  datatype JobStatus = Queued | Running | Completed | Failed {
    function Name(): string {
      match this
      case Queued => "queued"
      case Running => "running"
      case Completed => "completed"
      case Failed => "failed"
    }

    predicate IsTerminal() { Completed? || Failed? }
  }

  /** A row of `generation_jobs`. */
  datatype JobRecord = JobRecord(
    id: string,
    campaignId: string,
    status: JobStatus,
    mode: Mode,
    configJson: string,
    progress: int,
    stage: string,
    errorJson: Option<string>,
    createdAt: string,
    startedAt: Option<string>,
    completedAt: Option<string>)

  /** The argument of `updateGenerationJob`; `None` is an absent or null field. */
  datatype JobPatch = JobPatch(
    status: JobStatus,
    progress: Option<int>,
    stage: Option<string>,
    errorJson: Option<string>,
    startedAt: Option<string>,
    completedAt: Option<string>)

  /** The record `createGenerationJob` inserts. */
  function NewJob(id: string, campaignId: string, mode: Mode, configJson: string, stage: string, createdAt: string): (r: JobRecord)
    ensures r.id == id && r.campaignId == campaignId && r.mode == mode && r.configJson == configJson
    ensures r.status == Queued && r.progress == 0 && r.stage == stage && r.createdAt == createdAt
    ensures r.errorJson.None? && r.startedAt.None? && r.completedAt.None?
  {
    JobRecord(id, campaignId, Queued, mode, configJson, 0, stage, None, createdAt, None, None)
  }

  /** The row `updateGenerationJob` writes: status always, every other field only when supplied. */
  function MergeJob(current: JobRecord, patch: JobPatch): (r: JobRecord)
    ensures r.id == current.id && r.campaignId == current.campaignId && r.createdAt == current.createdAt
    ensures r.status == patch.status
    ensures patch.errorJson.None? ==> r.errorJson == current.errorJson
  {
    current.(
      status := patch.status,
      progress := patch.progress.GetOr(current.progress),
      stage := patch.stage.GetOr(current.stage),
      errorJson := if patch.errorJson.Some? then patch.errorJson else current.errorJson,
      startedAt := if patch.startedAt.Some? then patch.startedAt else current.startedAt,
      completedAt := if patch.completedAt.Some? then patch.completedAt else current.completedAt)
  }

  /**
   * What the merge keeps and what it takes: the identity of the job never
   * changes, the status is always the patch's, and each optional field is
   * the patch's exactly when the patch supplies it. In particular a null
   * `errorJson` cannot clear a stored error.
   */
  lemma MergeJobFields(current: JobRecord, patch: JobPatch)
    ensures var r := MergeJob(current, patch);
      && r.id == current.id && r.campaignId == current.campaignId && r.mode == current.mode
      && r.configJson == current.configJson && r.createdAt == current.createdAt
      && r.status == patch.status
      && (patch.progress.Some? ==> r.progress == patch.progress.value)
      && (patch.progress.None? ==> r.progress == current.progress)
      && (patch.stage.Some? ==> r.stage == patch.stage.value)
      && (patch.stage.None? ==> r.stage == current.stage)
      && (patch.errorJson.None? ==> r.errorJson == current.errorJson)
      && (patch.errorJson.Some? ==> r.errorJson == patch.errorJson)
      && (patch.startedAt.None? ==> r.startedAt == current.startedAt)
      && (patch.startedAt.Some? ==> r.startedAt == patch.startedAt)
      && (patch.completedAt.None? ==> r.completedAt == current.completedAt)
      && (patch.completedAt.Some? ==> r.completedAt == patch.completedAt)
  {
  }

  /** Applying the same patch twice is applying it once. */
  lemma MergeJobIdempotent(current: JobRecord, patch: JobPatch)
    ensures MergeJob(MergeJob(current, patch), patch) == MergeJob(current, patch)
  {
  }

  /** One patch standing for `first` followed by `second`: the later value wins where both supply one. */
  function ComposePatches(first: JobPatch, second: JobPatch): JobPatch {
    JobPatch(
      second.status,
      if second.progress.Some? then second.progress else first.progress,
      if second.stage.Some? then second.stage else first.stage,
      if second.errorJson.Some? then second.errorJson else first.errorJson,
      if second.startedAt.Some? then second.startedAt else first.startedAt,
      if second.completedAt.Some? then second.completedAt else first.completedAt)
  }

  /** Two successive updates have the effect of their composition. */
  lemma MergeJobComposes(current: JobRecord, first: JobPatch, second: JobPatch)
    ensures MergeJob(MergeJob(current, first), second) == MergeJob(current, ComposePatches(first, second))
  {
  }

  /** The record after a sequence of updates, applied in order. */
  function MergeAll(current: JobRecord, patches: seq<JobPatch>): JobRecord
    decreases |patches|
  {
    if patches == [] then current
    else MergeJob(MergeAll(current, patches[..|patches| - 1]), patches[|patches| - 1])
  }

  /** Updating after a sequence of updates extends the sequence. */
  lemma MergeAllSnoc(current: JobRecord, patches: seq<JobPatch>, p: JobPatch)
    ensures MergeAll(current, patches + [p]) == MergeJob(MergeAll(current, patches), p)
  {
    assert (patches + [p])[..|patches|] == patches;
  }

  /** Two runs of updates in a row are one run of both. */
  lemma {:induction false} MergeAllAppend(current: JobRecord, first: seq<JobPatch>, second: seq<JobPatch>)
    ensures MergeAll(current, first + second) == MergeAll(MergeAll(current, first), second)
    decreases |second|
  {
    if second == [] {
      assert first + second == first;
    } else {
      var init := second[..|second| - 1];
      var last := second[|second| - 1];
      assert second == init + [last];
      assert first + second == (first + init) + [last];
      MergeAllSnoc(current, first + init, last);
      MergeAllAppend(current, first, init);
      MergeAllSnoc(MergeAll(current, first), init, last);
    }
  }

  /** However many updates are applied, the job's identity and creation time stay. */
  lemma {:induction false} MergeAllKeepsIdentity(current: JobRecord, patches: seq<JobPatch>)
    ensures var r := MergeAll(current, patches);
      r.id == current.id && r.campaignId == current.campaignId && r.mode == current.mode
      && r.configJson == current.configJson && r.createdAt == current.createdAt
    decreases |patches|
  {
    if patches != [] {
      MergeAllKeepsIdentity(current, patches[..|patches| - 1]);
    }
  }

  /** The job table, keyed by job id, and the log of the updates written to it. */
  class JobStore {
    var jobs: map<string, JobRecord>
    ghost var writes: seq<JobPatch>

    constructor()
      ensures jobs == map[] && writes == []
    {
      jobs := map[];
      writes := [];
    }

    /** `getGenerationJob`. */
    method Get(id: string) returns (r: Option<JobRecord>)
      ensures r.Some? <==> id in jobs
      ensures r.Some? ==> r.value == jobs[id]
    {
      if id in jobs {
        return Some(jobs[id]);
      }
      return None;
    }

    /**
     * `createGenerationJob`. The insert fails, changing nothing, when the id
     * is taken (the table's primary key).
     */
    method Create(id: string, campaignId: string, mode: Mode, configJson: string, stage: string, createdAt: string)
      returns (inserted: bool)
      modifies this
      ensures inserted <==> id !in old(jobs)
      ensures inserted ==> jobs == old(jobs)[id := NewJob(id, campaignId, mode, configJson, stage, createdAt)]
      ensures !inserted ==> jobs == old(jobs)
      ensures writes == old(writes)
    {
      inserted := id !in jobs;
      if inserted {
        jobs := jobs[id := NewJob(id, campaignId, mode, configJson, stage, createdAt)];
      }
    }

    /** `updateGenerationJob`: a missing job is left alone; an existing one is merged with the patch. */
    method Update(id: string, patch: JobPatch)
      modifies this
      ensures id !in old(jobs) ==> jobs == old(jobs) && writes == old(writes)
      ensures id in old(jobs) ==> jobs == old(jobs)[id := MergeJob(old(jobs)[id], patch)]
                                  && writes == old(writes) + [patch]
    {
      var current := Get(id);
      if current.None? {
        return;
      }
      jobs := jobs[id := MergeJob(current.value, patch)];
      writes := writes + [patch];
    }
  }

  datatype VariantStatus = Pending | Approved | Rejected {
    function Name(): string {
      match this
      case Pending => "pending"
      case Approved => "approved"
      case Rejected => "rejected"
    }
  }

  /** A row of `variants`; `confidence` is in hundredths, `aiGenerated` the stored 0/1 flag. */
  datatype VariantRow = VariantRow(
    id: string,
    campaignId: string,
    jobId: string,
    headline: string,
    body: string,
    cta: string,
    imageKey: Option<string>,
    providerCopy: string,
    providerImage: string,
    confidence: int,
    status: VariantStatus,
    aiGenerated: int,
    createdAt: string)

  /** The argument of `insertVariant`. */
  datatype NewVariant = NewVariant(
    id: string,
    campaignId: string,
    jobId: string,
    headline: string,
    body: string,
    cta: string,
    imageKey: Option<string>,
    providerCopy: string,
    providerImage: string,
    confidence: int,
    status: VariantStatus,
    aiGenerated: bool)

  /** The stored form of a boolean flag. */
  function FlagColumn(b: bool): (r: int)
    ensures r == 0 || r == 1
    ensures r == 1 <==> b
  {
    if b then 1 else 0
  }

  /** The row `insertVariant` writes: every field as given, the flag as 0/1, the insert time. */
  function VariantRowOf(v: NewVariant, createdAt: string): (r: VariantRow)
    ensures r.aiGenerated == 1 <==> v.aiGenerated
    ensures r.aiGenerated == 0 <==> !v.aiGenerated
    ensures r.id == v.id && r.campaignId == v.campaignId && r.jobId == v.jobId && r.status == v.status
    ensures r.headline == v.headline && r.body == v.body && r.cta == v.cta && r.imageKey == v.imageKey
    ensures r.providerCopy == v.providerCopy && r.providerImage == v.providerImage && r.confidence == v.confidence
    ensures r.createdAt == createdAt
  {
    VariantRow(v.id, v.campaignId, v.jobId, v.headline, v.body, v.cta, v.imageKey,
               v.providerCopy, v.providerImage, v.confidence, v.status, FlagColumn(v.aiGenerated), createdAt)
  }

  /** The variant table, in insertion order. */
  class VariantStore {
    var rows: seq<VariantRow>

    constructor()
      ensures rows == []
    {
      rows := [];
    }

    /** `insertVariant`; `fault` is a write the database rejects, which changes nothing. */
    method Insert(v: NewVariant, createdAt: string, fault: bool) returns (ok: bool)
      modifies this
      ensures ok == !fault
      ensures rows == if fault then old(rows) else old(rows) + [VariantRowOf(v, createdAt)]
    {
      if fault {
        return false;
      }
      rows := rows + [VariantRowOf(v, createdAt)];
      return true;
    }
  }

  /** An object in the asset bucket. */
  datatype Blob = Blob(bytes: ImageBytes, contentType: string)

  /** The asset bucket, keyed by object key. */
  class BlobStore {
    var blobs: map<string, Blob>

    constructor()
      ensures blobs == map[]
    {
      blobs := map[];
    }

    /** `ASSETS.put`; `fault` is a rejected write, which changes nothing. */
    method Put(key: string, blob: Blob, fault: bool) returns (ok: bool)
      modifies this
      ensures ok == !fault
      ensures blobs == if fault then old(blobs) else old(blobs)[key := blob]
    {
      if fault {
        return false;
      }
      blobs := blobs[key := blob];
      return true;
    }
  }

  /** A value bound to a statement placeholder. */
  datatype BindValue = Text(text: string) | Number(number: int)

  /** A `column = ?n` condition. */
  datatype Condition = Condition(column: string, slot: nat)

  function RenderCondition(c: Condition): string {
    c.column + " = ?" + NatToString(c.slot)
  }

  function RenderConditions(cs: seq<Condition>): (r: seq<string>)
    ensures |r| == |cs|
    ensures forall k :: 0 <= k < |cs| ==> r[k] == RenderCondition(cs[k])
  {
    seq(|cs|, k requires 0 <= k < |cs| => RenderCondition(cs[k]))
  }

  /** The statement text of `listVariants` for the given conditions and bind count. */
  function ListQueryText(conditions: seq<Condition>, bindCount: nat): string
    requires bindCount >= 1
  {
    "\n    SELECT *\n    FROM variants\n    WHERE " + Join(RenderConditions(conditions), " AND ")
    + "\n    ORDER BY created_at DESC\n    LIMIT ?" + NatToString(bindCount - 1)
    + " OFFSET ?" + NatToString(bindCount) + "\n  "
  }

  /** The statement of a `listVariants` call and its bind values. */
  datatype Statement = Statement(conditions: seq<Condition>, limitSlot: nat, offsetSlot: nat, text: string, binds: seq<BindValue>)

  /**
   * `listVariants`' statement: the campaign is `?1`, a status filter (any
   * non-empty query value) the next number, then limit and offset the last
   * two. Every placeholder number names the bind position holding its value.
   */
  method ListVariantsStatement(campaignId: string, status: Option<string>, limit: int, cursor: int)
    returns (st: Statement)
    ensures |st.conditions| >= 1 && |st.binds| >= 3
    ensures st.conditions[0] == Condition("campaign_id", 1) && st.binds[0] == Text(campaignId)
    ensures !Falsy(status) ==> |st.conditions| == 2 && st.conditions[1] == Condition("status", 2)
                               && |st.binds| == 4 && st.binds[1] == Text(status.value)
    ensures Falsy(status) ==> |st.conditions| == 1 && |st.binds| == 3
    ensures forall c :: c in st.conditions ==> 1 <= c.slot <= |st.binds|
    ensures st.limitSlot == |st.binds| - 1 && st.binds[st.limitSlot - 1] == Number(limit)
    ensures st.offsetSlot == |st.binds| && st.binds[st.offsetSlot - 1] == Number(cursor)
    ensures st.text == ListQueryText(st.conditions, |st.binds|)
  {
    var conditions := [Condition("campaign_id", 1)];
    var binds := [Text(campaignId)];
    if !Falsy(status) {
      conditions := conditions + [Condition("status", |binds| + 1)];
      binds := binds + [Text(status.value)];
    }
    binds := binds + [Number(limit)];
    binds := binds + [Number(cursor)];
    st := Statement(conditions, |binds| - 1, |binds|, ListQueryText(conditions, |binds|), binds);
  }

  /** The cursor of the next page: present exactly when the page came back full. */
  function NextCursor(itemCount: nat, limit: int, cursor: int): (r: Option<string>)
    ensures r.Some? <==> itemCount == limit
  {
    if itemCount == limit then Some(IntToString(cursor + limit)) else None
  }

  /** A full page's cursor reads back as the offset just past it. */
  lemma NextCursorReadsBack(itemCount: nat, limit: int, cursor: int)
    requires itemCount == limit && cursor >= 0
    ensures NextCursor(itemCount, limit, cursor).Some?
    ensures AllDigits(NextCursor(itemCount, limit, cursor).value)
    ensures DecimalValue(NextCursor(itemCount, limit, cursor).value) == cursor + limit
  {
    DecimalRoundTrip(cursor + limit);
  }

  /** A page of `listVariants`: the rows the statement returned and the next cursor. */
  datatype VariantPage = VariantPage(items: seq<VariantRow>, nextCursor: Option<string>)

  /** `listVariants` given the rows the database returned for the statement (`None` for no result set). */
  function ListVariantsPage(results: Option<seq<VariantRow>>, limit: int, cursor: int): (p: VariantPage)
    ensures p.items == results.GetOr([])
    ensures p.nextCursor.Some? <==> |results.GetOr([])| == limit
  {
    var items := results.GetOr([]);
    VariantPage(items, NextCursor(|items|, limit, cursor))
  }

  /** The placeholders `?1, ?2, …, ?n`. */
  function Placeholders(n: nat): string {
    Join(seq(n, k requires 0 <= k < n => "?" + NatToString(k + 1)), ", ")
  }

  /** The statement of `listVariantsByIds`, or `None` when no query is made (no ids). */
  function ByIdsQuery(ids: seq<string>): (q: Option<string>)
    ensures q.None? <==> ids == []
  {
    if ids == [] then None
    else Some("SELECT * FROM variants WHERE id IN (" + Placeholders(|ids|) + ")")
  }

  /**
   * The placeholders are numbered in id order: split at the commas, part k
   * is `?k+1` (after the separating space), one part per id.
   */
  lemma PlaceholdersNumbered(n: nat)
    requires n >= 1
    ensures var parts := Split(Placeholders(n), ',');
      && |parts| == n
      && parts[0] == "?1"
      && forall k :: 1 <= k < n ==> parts[k] == " ?" + NatToString(k + 1)
  {
    var ys := seq(n, k requires 0 <= k < n => "?" + NatToString(k + 1));
    forall k | 0 <= k < n
      ensures ',' !in ys[k]
    {
      assert ',' !in NatToString(k + 1);
    }
    assert [','] + " " == ", ";
    assert [] + Join(ys, [','] + " ") == Placeholders(n);
    SplitJoinGeneral([], ys, ',', " ");
  }
}
