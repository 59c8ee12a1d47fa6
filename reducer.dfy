/**
 * The workspace front end's state and its reducer: every action returns a new
 * state built from the old one, changing only the fields that action names.
 */
module Workspace {
  import opened Wrappers
  import Microcopy

  datatype AppView = Dashboard | Campaign | Generate | Review
  datatype GenerationMode = Quick | Custom | Iterate
  datatype Objective = Awareness | Consideration | Conversion
  datatype VariantStatus = Pending | Approved | Rejected
  datatype JobStatus = Idle | Queued | Running | Completed | Failed
  datatype ExportFormat = Png | Jpg | Pdf
  datatype Grouping = ByPlatform | ByVariantGroup | Flat

  datatype ExportSettings = ExportSettings(
    meta: bool, instagram: bool, google: bool, linkedIn: bool, format: ExportFormat, grouping: Grouping)

  /** A `Partial<ExportSettings>`: `None` is a key the object does not have. */
  datatype ExportSettingsPatch = ExportSettingsPatch(
    meta: Option<bool>, instagram: Option<bool>, google: Option<bool>, linkedIn: Option<bool>,
    format: Option<ExportFormat>, grouping: Option<Grouping>)

  /** `{ ...settings, ...patch }`: every key the patch has wins, every other key is kept. */
  function MergeExportSettings(settings: ExportSettings, patch: ExportSettingsPatch): (r: ExportSettings)
    ensures r.meta == patch.meta.GetOr(settings.meta)
    ensures r.instagram == patch.instagram.GetOr(settings.instagram)
    ensures r.google == patch.google.GetOr(settings.google)
    ensures r.linkedIn == patch.linkedIn.GetOr(settings.linkedIn)
    ensures r.format == patch.format.GetOr(settings.format)
    ensures r.grouping == patch.grouping.GetOr(settings.grouping)
  {
    ExportSettings(
      patch.meta.GetOr(settings.meta), patch.instagram.GetOr(settings.instagram),
      patch.google.GetOr(settings.google), patch.linkedIn.GetOr(settings.linkedIn),
      patch.format.GetOr(settings.format), patch.grouping.GetOr(settings.grouping))
  }

  /** The stored workspace preferences. */
  datatype WorkspacePreferences = WorkspacePreferences(
    lastView: AppView, generationMode: GenerationMode, exportSettings: ExportSettings)

  /** A variant as the review screen holds it. */
  datatype ReviewVariant = ReviewVariant(
    id: string, title: string, headline: string, body: Option<string>, cta: string, confidence: real,
    status: VariantStatus, aiGenerated: bool, imageUrl: Option<string>, providerCopy: Option<string>,
    providerImage: Option<string>, createdAt: Option<string>)

  datatype Tone = Info | Success | Error
  datatype Toast = Toast(id: string, tone: Tone, message: string)

  datatype AuthStatus = Checking | Authenticating | Authenticated | Unauthenticated
  datatype AuthState = AuthState(status: AuthStatus, error: Option<string>)

  datatype GenerationState = GenerationState(
    mode: GenerationMode, targetCount: int, headlineVariations: int, visualVariations: int,
    status: JobStatus, progress: int, stage: string, loadingMessage: string, feedbackMessage: string,
    jobId: Option<string>, secondsElapsed: int)

  datatype WorkspaceState = WorkspaceState(
    view: AppView, wizardStep: int, objective: Objective, generation: GenerationState,
    reviewVariants: seq<ReviewVariant>, selectedVariantIds: seq<string>, reviewLoading: bool,
    reviewError: Option<string>, exportSettings: ExportSettings, exportLoading: bool,
    exportError: Option<string>, exportDownloadUrl: Option<string>, lastExportId: Option<string>,
    auth: AuthState, liveMessage: string, toast: Option<Toast>, debugMode: bool)

  datatype InitOptions = InitOptions(
    initialView: AppView, initialStep: int, preferences: WorkspacePreferences, debugMode: bool)

  /** The reducer's actions; `Unrecognised` stands for any other action type. */
  datatype Action =
    | NavigateView(view: AppView, navStep: Option<int>)
    | SetWizardStep(step: int)
    | SetObjective(objective: Objective)
    | SetGenerationMode(mode: GenerationMode)
    | SetGenerationTuning(targetCount: Option<int>, headlineVariations: Option<int>, visualVariations: Option<int>)
    | GenerationJobCreated(jobId: string, message: string)
    | GenerationProgress(progress: int, stage: string, loadingMessage: string, secondsElapsed: int, jobStatus: JobStatus)
    | GenerationCompleted(feedbackMessage: string, liveMessage: string)
    | GenerationFailed(feedbackMessage: string, liveMessage: string)
    | SetReviewVariants(variants: seq<ReviewVariant>)
    | UpsertReviewVariants(variants: seq<ReviewVariant>)
    | SetReviewLoading(loading: bool)
    | SetReviewError(reviewError: Option<string>)
    | ToggleVariantSelection(variantId: string)
    | ToggleSelectAllVariants
    | ClearVariantSelection
    | PatchVariantStatus(variantId: string, status: VariantStatus)
    | BatchUpdateVariantStatus(status: VariantStatus)
    | SetExportSettings(exportSettings: ExportSettingsPatch)
    | ExportRequested
    | ExportCompleted(exportId: string, downloadUrl: Option<string>)
    | ExportFailed(error: string)
    | AuthCheckStarted
    | AuthenticatingAction
    | AuthSuccess(authMessage: Option<string>)
    | AuthFailure(error: string)
    | AuthRequired
    | SetLiveMessage(message: string)
    | ClearLiveMessage
    | SetToast(toast: Toast)
    | ClearToast
    | Unrecognised

  /** What the reducer draws from the clock and `Math.random`: the next toast id and the loading-message draw. */
  datatype Ambient = Ambient(toastId: string, loadingDraw: Microcopy.Unit)

  // ---------------------------------------------------------------------------
  // Constants
  // ---------------------------------------------------------------------------

  /** The labels of the generation stages, first to last. */
  const GenerationStageLabels: seq<string> := [
    "Queued", "Building prompt set", "Generating visuals", "Writing copy variants",
    "Scoring brand consistency", "Packaging review set", "Completed"]

  const DefaultGenerationStage: string := GenerationStageLabels[0]
  const CompletedGenerationStage: string := GenerationStageLabels[|GenerationStageLabels| - 1]

  const FallbackReviewVariants: seq<ReviewVariant> := [
    ReviewVariant("var-001", "Variant #001", "Generate 100 campaign-ready ads before your next coffee refill.",
                  None, "Start Creating", 4.9, Approved, true, None, None, None, None),
    ReviewVariant("var-002", "Variant #002", "Scale your creative without losing your brand signal.",
                  None, "Book A Demo", 4.6, Pending, true, None, None, None, None),
    ReviewVariant("var-003", "Variant #003", "Move from idea to launch-ready ads in one workspace.",
                  None, "Generate Variants", 4.2, Pending, false, None, None, None, None)]

  const LastStep: int := 5

  /** The messages the reducer itself writes. */
  const ExportReadyMessage: string := "Export package completed and ready."
  const ExportLinkToast: string := "Export package generated. Download is ready."
  const ExportToast: string := "Export package generated."
  const UnlockedMessage: string := "Authenticated. Swiss workspace unlocked."

  // ---------------------------------------------------------------------------
  // Helpers
  // ---------------------------------------------------------------------------

  /** `clampStep`: a wizard step index between 0 and 5. */
  function ClampStep(step: int): (r: int)
    ensures 0 <= r <= LastStep
    ensures 0 <= step <= LastStep ==> r == step
    ensures step < 0 ==> r == 0
    ensures step > LastStep ==> r == LastStep
  {
    MaxInt(0, MinInt(step, LastStep))
  }

  function Ids(variants: seq<ReviewVariant>): (ids: seq<string>)
    ensures |ids| == |variants|
    ensures forall k :: 0 <= k < |variants| ==> ids[k] == variants[k].id
  {
    seq(|variants|, k requires 0 <= k < |variants| => variants[k].id)
  }

  /** `ids.filter((id) => id !== drop)`. */
  function RemoveAll(ids: seq<string>, drop: string): (r: seq<string>)
    ensures drop !in r
    ensures forall x :: x != drop ==> (x in r <==> x in ids)
    ensures |r| <= |ids|
    decreases |ids|
  {
    if ids == [] then []
    else if ids[|ids| - 1] == drop then RemoveAll(ids[..|ids| - 1], drop)
    else RemoveAll(ids[..|ids| - 1], drop) + [ids[|ids| - 1]]
  }

  /** Removing an id that is not there leaves the list as it is. */
  lemma {:induction false} RemoveAbsent(ids: seq<string>, drop: string)
    requires drop !in ids
    ensures RemoveAll(ids, drop) == ids
    decreases |ids|
  {
    if ids != [] {
      RemoveAbsent(ids[..|ids| - 1], drop);
    }
  }

  /** `TOGGLE_VARIANT_SELECTION`'s new selection: the id's membership flips and every other id's stays. */
  function Toggle(ids: seq<string>, id: string): (r: seq<string>)
    ensures id in r <==> id !in ids
    ensures forall x :: x != id ==> (x in r <==> x in ids)
  {
    if id in ids then RemoveAll(ids, id) else ids + [id]
  }

  /** Each variant with the new status where `chosen` holds for its id, the others as they were. */
  function WithStatus(variants: seq<ReviewVariant>, chosen: set<string>, status: VariantStatus): (r: seq<ReviewVariant>)
    ensures |r| == |variants|
  {
    seq(|variants|, k requires 0 <= k < |variants| =>
      if variants[k].id in chosen then variants[k].(status := status) else variants[k])
  }

  /** `map.set(v.id, v)` on the entries of a `Map` in insertion order: an existing key keeps its place. */
  function SetEntry(entries: seq<ReviewVariant>, v: ReviewVariant): (r: seq<ReviewVariant>)
    ensures v in r
    ensures |entries| <= |r| <= |entries| + 1
    decreases |entries|
  {
    if entries == [] then [v]
    else if entries[0].id == v.id then [v] + entries[1..]
    else [entries[0]] + SetEntry(entries[1..], v)
  }

  /** Setting the variants one after another: at most one new entry for each. */
  function SetEntries(entries: seq<ReviewVariant>, incoming: seq<ReviewVariant>): (r: seq<ReviewVariant>)
    ensures |entries| <= |r| <= |entries| + |incoming|
    decreases |incoming|
  {
    if incoming == [] then entries
    else SetEntries(SetEntry(entries, incoming[0]), incoming[1..])
  }

  /**
   * `UPSERT_REVIEW_VARIANTS`'s new list: the values of a map keyed by id,
   * built from the old list and then the incoming one. Its ids are those of
   * both lists, each once and where it first arrived, and each entry is the
   * last variant that came with its id.
   */
  function Upsert(existing: seq<ReviewVariant>, incoming: seq<ReviewVariant>): (r: seq<ReviewVariant>)
    ensures Ids(r) == NewIds([], existing + incoming)
    ensures forall k :: 0 <= k < |r| ==> LastWithId(existing + incoming, r[k].id) == Some(r[k])
  {
    UpsertEntries(existing, incoming);
    SetEntries(SetEntries([], existing), incoming)
  }

  // ---------------------------------------------------------------------------
  // Initial state and reducer
  // ---------------------------------------------------------------------------

  /** The state `createInitialWorkspaceState` builds, at a given wizard step; the loading-message draw is a parameter. */
  function InitialStateAt(options: InitOptions, wizardStep: int, loadingDraw: Microcopy.Unit): (s: WorkspaceState)
    ensures s.view == options.initialView && s.wizardStep == wizardStep
    ensures s.generation.status == Idle && s.generation.progress == 0 && s.generation.jobId == None
    ensures s.generation.mode == options.preferences.generationMode
    ensures s.exportSettings == options.preferences.exportSettings
    ensures s.selectedVariantIds == [] && s.reviewVariants == FallbackReviewVariants
    ensures s.auth == AuthState(Checking, None) && s.toast == None && s.debugMode == options.debugMode
  {
    WorkspaceState(
      options.initialView, wizardStep, Conversion,
      GenerationState(options.preferences.generationMode, 48, 8, 6, Idle, 0, DefaultGenerationStage,
                      Microcopy.GetLoadingMessage(0, loadingDraw), "", None, 0),
      FallbackReviewVariants, [], false, None, options.preferences.exportSettings, false, None, None, None,
      AuthState(Checking, None), "Swiss Precision workspace ready.", None, options.debugMode)
  }

  /** `createInitialWorkspaceState` as written: the option's step is clamped as it is, although it is one-based. */
  function InitialStateAsWritten(options: InitOptions, loadingDraw: Microcopy.Unit): (s: WorkspaceState)
    ensures s == InitialStateAt(options, ClampStep(options.initialStep), loadingDraw)
  {
    InitialStateAt(options, ClampStep(options.initialStep), loadingDraw)
  }

  /** `createInitialWorkspaceState` with the one-based step read as `NAVIGATE_VIEW` reads one. */
  function InitialState(options: InitOptions, loadingDraw: Microcopy.Unit): (s: WorkspaceState)
    ensures s == InitialStateAt(options, ClampStep(options.initialStep - 1), loadingDraw)
  {
    InitialStateAt(options, ClampStep(options.initialStep - 1), loadingDraw)
  }

  /** Opening at a one-based step puts the wizard where navigating with that step would. */
  lemma InitialStepLikeNavigation(options: InitOptions, loadingDraw: Microcopy.Unit, state: WorkspaceState, ambient: Ambient)
    ensures InitialState(options, loadingDraw).wizardStep
            == Reduce(state, NavigateView(options.initialView, Some(options.initialStep)), ambient).wizardStep
  {
  }

  /** As written, every one-based step from 1 to 5 opens the wizard one step further on than navigating with it does. */
  lemma InitialStepAsWrittenAdvances(options: InitOptions, loadingDraw: Microcopy.Unit, state: WorkspaceState, ambient: Ambient)
    requires 1 <= options.initialStep <= LastStep
    ensures InitialStateAsWritten(options, loadingDraw).wizardStep
            == Reduce(state, NavigateView(options.initialView, Some(options.initialStep)), ambient).wizardStep + 1
  {
  }

  /** `workspaceReducer`; only the two navigation actions move the wizard step. */
  function Reduce(state: WorkspaceState, action: Action, ambient: Ambient): (next: WorkspaceState)
    ensures !action.NavigateView? && !action.SetWizardStep? ==> next.wizardStep == state.wizardStep
  {
    match action
    case NavigateView(view, step) =>
      state.(view := view, wizardStep := if step.Some? then ClampStep(step.value - 1) else state.wizardStep)
    case SetWizardStep(step) => state.(wizardStep := ClampStep(step))
    case SetObjective(objective) => state.(objective := objective)
    case SetGenerationMode(mode) => state.(generation := state.generation.(mode := mode))
    case SetGenerationTuning(targetCount, headlineVariations, visualVariations) =>
      state.(generation := state.generation.(
        targetCount := targetCount.GetOr(state.generation.targetCount),
        headlineVariations := headlineVariations.GetOr(state.generation.headlineVariations),
        visualVariations := visualVariations.GetOr(state.generation.visualVariations)))
    case GenerationJobCreated(jobId, message) =>
      state.(
        view := Generate,
        generation := state.generation.(
          status := Queued, progress := 0, stage := DefaultGenerationStage, feedbackMessage := "",
          jobId := Some(jobId), secondsElapsed := 0,
          loadingMessage := Microcopy.GetLoadingMessage(0, ambient.loadingDraw)),
        liveMessage := message,
        exportError := None,
        toast := Some(Toast(ambient.toastId, Info, message)))
    case GenerationProgress(progress, stage, loadingMessage, secondsElapsed, status) =>
      state.(generation := state.generation.(
        status := status, progress := progress, stage := stage, loadingMessage := loadingMessage,
        secondsElapsed := secondsElapsed))
    case GenerationCompleted(feedbackMessage, liveMessage) =>
      state.(
        view := Review,
        generation := state.generation.(
          status := Completed, progress := 100, stage := CompletedGenerationStage, feedbackMessage := feedbackMessage),
        liveMessage := liveMessage,
        toast := Some(Toast(ambient.toastId, Success, feedbackMessage)))
    case GenerationFailed(feedbackMessage, liveMessage) =>
      state.(
        generation := state.generation.(status := Failed, feedbackMessage := feedbackMessage),
        liveMessage := liveMessage,
        toast := Some(Toast(ambient.toastId, Error, feedbackMessage)))
    case SetReviewVariants(variants) => state.(reviewVariants := variants, reviewError := None)
    case UpsertReviewVariants(variants) =>
      state.(reviewVariants := Upsert(state.reviewVariants, variants), reviewError := None)
    case SetReviewLoading(loading) => state.(reviewLoading := loading)
    case SetReviewError(error) => state.(reviewError := error)
    case ToggleVariantSelection(variantId) =>
      state.(selectedVariantIds := Toggle(state.selectedVariantIds, variantId))
    case ToggleSelectAllVariants =>
      if |state.selectedVariantIds| > 0 then state.(selectedVariantIds := [])
      else state.(selectedVariantIds := Ids(state.reviewVariants))
    case ClearVariantSelection => state.(selectedVariantIds := [])
    case PatchVariantStatus(variantId, status) =>
      state.(reviewVariants := WithStatus(state.reviewVariants, {variantId}, status))
    case BatchUpdateVariantStatus(status) =>
      if |state.selectedVariantIds| == 0 then state
      else state.(
        reviewVariants := WithStatus(state.reviewVariants, (set id | id in state.selectedVariantIds), status),
        selectedVariantIds := [])
    case SetExportSettings(patch) =>
      state.(exportSettings := MergeExportSettings(state.exportSettings, patch))
    case ExportRequested => state.(exportLoading := true, exportError := None)
    case ExportCompleted(exportId, downloadUrl) =>
      state.(
        exportLoading := false, exportError := None, exportDownloadUrl := downloadUrl,
        lastExportId := Some(exportId), liveMessage := ExportReadyMessage,
        toast := Some(Toast(ambient.toastId, Success,
          if downloadUrl.Some? && downloadUrl.value != "" then ExportLinkToast
          else ExportToast)))
    case ExportFailed(error) =>
      state.(exportLoading := false, exportError := Some(error), toast := Some(Toast(ambient.toastId, Error, error)))
    case AuthCheckStarted => state.(auth := AuthState(Checking, None))
    case AuthenticatingAction => state.(auth := AuthState(Authenticating, None))
    case AuthSuccess(liveMessage) =>
      state.(auth := AuthState(Authenticated, None),
             liveMessage := liveMessage.GetOr(UnlockedMessage))
    case AuthFailure(error) => state.(auth := AuthState(Unauthenticated, Some(error)))
    case AuthRequired => state.(auth := AuthState(Unauthenticated, None))
    case SetLiveMessage(message) => state.(liveMessage := message)
    case ClearLiveMessage => state.(liveMessage := "")
    case SetToast(toast) => state.(toast := Some(toast))
    case ClearToast => state.(toast := None)
    case Unrecognised => state
  }

  // ---------------------------------------------------------------------------
  // Properties
  // ---------------------------------------------------------------------------

  /** The wizard step stays a valid index whatever the actions. */
  lemma StepStaysInRange(state: WorkspaceState, action: Action, ambient: Ambient)
    requires 0 <= state.wizardStep <= LastStep
    ensures 0 <= Reduce(state, action, ambient).wizardStep <= LastStep
  {
  }

  /** Navigating with a one-based step moves the wizard to that step, clamped; without one the step is kept; nothing but view and step changes. */
  lemma NavigateViewSteps(state: WorkspaceState, view: AppView, step: Option<int>, ambient: Ambient)
    ensures var next := Reduce(state, NavigateView(view, step), ambient);
      && next.view == view
      && (step.Some? ==> next.wizardStep == ClampStep(step.value - 1))
      && (step.Some? && 1 <= step.value <= LastStep + 1 ==> next.wizardStep == step.value - 1)
      && (step.None? ==> next.wizardStep == state.wizardStep)
      && next.(view := state.view, wizardStep := state.wizardStep) == state
  {
  }

  /** Tuning changes only the counts supplied. */
  lemma TuningChangesOnlySupplied(state: WorkspaceState, t: Option<int>, h: Option<int>, v: Option<int>, ambient: Ambient)
    ensures var next := Reduce(state, SetGenerationTuning(t, h, v), ambient);
      && next.generation.targetCount == (if t.Some? then t.value else state.generation.targetCount)
      && next.generation.headlineVariations == (if h.Some? then h.value else state.generation.headlineVariations)
      && next.generation.visualVariations == (if v.Some? then v.value else state.generation.visualVariations)
      && next.(generation := state.generation) == state
      && next.generation.(targetCount := state.generation.targetCount,
                          headlineVariations := state.generation.headlineVariations,
                          visualVariations := state.generation.visualVariations) == state.generation
  {
  }

  /** Toggling an unselected id appends it; toggling a selected one removes every occurrence and keeps the rest. */
  lemma ToggleSelection(state: WorkspaceState, id: string, ambient: Ambient)
    ensures var next := Reduce(state, ToggleVariantSelection(id), ambient);
      && (id !in state.selectedVariantIds ==> next.selectedVariantIds == state.selectedVariantIds + [id])
      && (id in state.selectedVariantIds ==>
            id !in next.selectedVariantIds
            && forall x :: x != id ==> (x in next.selectedVariantIds <==> x in state.selectedVariantIds))
      && next.(selectedVariantIds := state.selectedVariantIds) == state
  {
  }

  /** Toggling an id twice restores a selection that did not hold it. */
  lemma ToggleTwice(state: WorkspaceState, id: string, ambient: Ambient)
    requires id !in state.selectedVariantIds
    ensures Reduce(Reduce(state, ToggleVariantSelection(id), ambient), ToggleVariantSelection(id), ambient) == state
  {
    var ids := state.selectedVariantIds;
    RemoveAbsent(ids, id);
    assert RemoveAll(ids + [id], id) == RemoveAll(ids, id) by {
      assert (ids + [id])[..|ids|] == ids;
    }
  }

  /** Select-all clears a non-empty selection and selects every review variant, in order, when there is none. */
  lemma ToggleSelectAll(state: WorkspaceState, ambient: Ambient)
    ensures var next := Reduce(state, ToggleSelectAllVariants, ambient);
      && (|state.selectedVariantIds| > 0 ==> next.selectedVariantIds == [])
      && (|state.selectedVariantIds| == 0 ==>
            |next.selectedVariantIds| == |state.reviewVariants|
            && forall k :: 0 <= k < |state.reviewVariants| ==> next.selectedVariantIds[k] == state.reviewVariants[k].id)
      && next.(selectedVariantIds := state.selectedVariantIds) == state
  {
  }

  /** Without a selection, a batch update does nothing. */
  lemma BatchWithoutSelection(state: WorkspaceState, status: VariantStatus, ambient: Ambient)
    requires state.selectedVariantIds == []
    ensures Reduce(state, BatchUpdateVariantStatus(status), ambient) == state
  {
  }

  /**
   * With a selection, exactly the selected variants take the new status,
   * every variant keeps its place and its other fields, and the selection
   * is cleared.
   */
  lemma BatchUpdatesSelected(state: WorkspaceState, status: VariantStatus, ambient: Ambient)
    requires state.selectedVariantIds != []
    ensures var next := Reduce(state, BatchUpdateVariantStatus(status), ambient);
      && |next.reviewVariants| == |state.reviewVariants|
      && next.selectedVariantIds == []
      && (forall k :: 0 <= k < |state.reviewVariants| ==>
            next.reviewVariants[k].(status := state.reviewVariants[k].status) == state.reviewVariants[k]
            && (state.reviewVariants[k].id in state.selectedVariantIds ==> next.reviewVariants[k].status == status)
            && (state.reviewVariants[k].id !in state.selectedVariantIds ==> next.reviewVariants[k] == state.reviewVariants[k]))
      && next.(reviewVariants := state.reviewVariants, selectedVariantIds := state.selectedVariantIds) == state
  {
  }

  /** Patching a status changes the variants with that id only. */
  lemma PatchChangesOnlyMatching(state: WorkspaceState, id: string, status: VariantStatus, ambient: Ambient)
    ensures var next := Reduce(state, PatchVariantStatus(id, status), ambient);
      && |next.reviewVariants| == |state.reviewVariants|
      && (forall k :: 0 <= k < |state.reviewVariants| ==>
            (state.reviewVariants[k].id == id ==> next.reviewVariants[k] == state.reviewVariants[k].(status := status))
            && (state.reviewVariants[k].id != id ==> next.reviewVariants[k] == state.reviewVariants[k]))
      && next.(reviewVariants := state.reviewVariants) == state
  {
  }

  /** Job creation, completion and failure set the generation lifecycle. */
  lemma GenerationLifecycle(state: WorkspaceState, jobId: string, message: string, feedback: string, live: string, ambient: Ambient)
    ensures var created := Reduce(state, GenerationJobCreated(jobId, message), ambient);
      created.generation.status == Queued && created.generation.progress == 0
      && created.generation.jobId == Some(jobId) && created.view == Generate
      && created.generation.stage == "Queued"
    ensures var done := Reduce(state, GenerationCompleted(feedback, live), ambient);
      done.generation.status == Completed && done.generation.progress == 100 && done.view == Review
      && done.generation.stage == "Completed"
    ensures var failed := Reduce(state, GenerationFailed(feedback, live), ambient);
      failed.generation.status == Failed && failed.generation.progress == state.generation.progress
      && failed.view == state.view
  {
  }

  /** An action the reducer does not know returns the state itself. */
  lemma UnrecognisedKeepsState(state: WorkspaceState, ambient: Ambient)
    ensures Reduce(state, Unrecognised, ambient) == state
  {
  }

  /** An export request sets the loading flag and clears the last error; nothing else changes. */
  lemma ExportRequestedLoads(state: WorkspaceState, ambient: Ambient)
    ensures var next := Reduce(state, ExportRequested, ambient);
      next.exportLoading && next.exportError == None
      && next.(exportLoading := state.exportLoading, exportError := state.exportError) == state
  {
  }

  /** A completed export clears the loading flag and the error, records the export and its link, and tells whether a download is ready. */
  lemma ExportCompletedRecords(state: WorkspaceState, exportId: string, downloadUrl: Option<string>, ambient: Ambient)
    ensures var next := Reduce(state, ExportCompleted(exportId, downloadUrl), ambient);
      !next.exportLoading && next.exportError == None && next.exportDownloadUrl == downloadUrl
      && next.lastExportId == Some(exportId) && next.liveMessage == ExportReadyMessage
      && next.toast.Some? && next.toast.value.tone == Success
      && (next.toast.value.message == ExportLinkToast <==> downloadUrl.Some? && downloadUrl.value != "")
  {
  }

  /** A failed export clears the loading flag and keeps the error, shown in an error toast. */
  lemma ExportFailedKeepsError(state: WorkspaceState, error: string, ambient: Ambient)
    ensures var next := Reduce(state, ExportFailed(error), ambient);
      !next.exportLoading && next.exportError == Some(error)
      && next.toast == Some(Toast(ambient.toastId, Error, error))
  {
  }

  /** A successful sign-in authenticates without error and announces the given message, else the unlock. */
  lemma AuthSuccessUnlocks(state: WorkspaceState, message: Option<string>, ambient: Ambient)
    ensures var next := Reduce(state, AuthSuccess(message), ambient);
      next.auth == AuthState(Authenticated, None)
      && next.liveMessage == (if message.Some? then message.value else UnlockedMessage)
  {
  }

  /** A failed sign-in leaves the workspace unauthenticated with the error; a required sign-in does so without one. */
  lemma AuthFailureKeepsError(state: WorkspaceState, error: string, ambient: Ambient)
    ensures Reduce(state, AuthFailure(error), ambient).auth == AuthState(Unauthenticated, Some(error))
    ensures Reduce(state, AuthRequired, ambient).auth == AuthState(Unauthenticated, None)
  {
  }

  /** A session check and a sign-in in progress carry no error. */
  lemma AuthPendingStatus(state: WorkspaceState, ambient: Ambient)
    ensures Reduce(state, AuthCheckStarted, ambient).auth == AuthState(Checking, None)
    ensures Reduce(state, AuthenticatingAction, ambient).auth == AuthState(Authenticating, None)
  {
  }

  /** Export settings are merged: every key of the patch wins and the rest of the state is kept. */
  lemma ExportSettingsMerged(state: WorkspaceState, patch: ExportSettingsPatch, ambient: Ambient)
    ensures var next := Reduce(state, SetExportSettings(patch), ambient);
      next.exportSettings == MergeExportSettings(state.exportSettings, patch)
      && next.(exportSettings := state.exportSettings) == state
  {
  }

  /** `SET_WIZARD_STEP` moves to the clamped step and changes nothing else. */
  lemma WizardStepSet(state: WorkspaceState, step: int, ambient: Ambient)
    ensures var next := Reduce(state, SetWizardStep(step), ambient);
      0 <= next.wizardStep <= LastStep
      && (0 <= step <= LastStep ==> next.wizardStep == step)
      && next.(wizardStep := state.wizardStep) == state
  {
  }

  /** `SET_OBJECTIVE` changes the objective only. */
  lemma ObjectiveSet(state: WorkspaceState, objective: Objective, ambient: Ambient)
    ensures var next := Reduce(state, SetObjective(objective), ambient);
      next.objective == objective && next.(objective := state.objective) == state
  {
  }

  /** `SET_GENERATION_MODE` changes the generation mode only. */
  lemma GenerationModeSet(state: WorkspaceState, mode: GenerationMode, ambient: Ambient)
    ensures var next := Reduce(state, SetGenerationMode(mode), ambient);
      next.generation.mode == mode
      && next.(generation := next.generation.(mode := state.generation.mode)) == state
  {
  }

  /** `GENERATION_PROGRESS` reports status, progress, stage, message and elapsed time, keeping the job, the tuning and everything else. */
  lemma GenerationProgressReported(state: WorkspaceState, progress: int, stage: string, loadingMessage: string,
                                   secondsElapsed: int, jobStatus: JobStatus, ambient: Ambient)
    ensures var next := Reduce(state, GenerationProgress(progress, stage, loadingMessage, secondsElapsed, jobStatus), ambient);
      var g := next.generation;
      g.status == jobStatus && g.progress == progress && g.stage == stage
      && g.loadingMessage == loadingMessage && g.secondsElapsed == secondsElapsed
      && g.jobId == state.generation.jobId && g.mode == state.generation.mode
      && g.feedbackMessage == state.generation.feedbackMessage
      && next.(generation := state.generation) == state
  {
  }

  /** `SET_REVIEW_VARIANTS` replaces the list and clears the review error, keeping the selection. */
  lemma ReviewVariantsReplaced(state: WorkspaceState, variants: seq<ReviewVariant>, ambient: Ambient)
    ensures var next := Reduce(state, SetReviewVariants(variants), ambient);
      next.reviewVariants == variants && next.reviewError.None?
      && next.selectedVariantIds == state.selectedVariantIds
      && next.(reviewVariants := state.reviewVariants, reviewError := state.reviewError) == state
  {
  }

  /** `SET_REVIEW_LOADING` changes the loading flag only. */
  lemma ReviewLoadingSet(state: WorkspaceState, loading: bool, ambient: Ambient)
    ensures var next := Reduce(state, SetReviewLoading(loading), ambient);
      next.reviewLoading == loading && next.(reviewLoading := state.reviewLoading) == state
  {
  }

  /** `SET_REVIEW_ERROR` changes the review error only. */
  lemma ReviewErrorSet(state: WorkspaceState, reviewError: Option<string>, ambient: Ambient)
    ensures var next := Reduce(state, SetReviewError(reviewError), ambient);
      next.reviewError == reviewError && next.(reviewError := state.reviewError) == state
  {
  }

  /** `CLEAR_VARIANT_SELECTION` empties the selection and keeps the variants. */
  lemma SelectionCleared(state: WorkspaceState, ambient: Ambient)
    ensures var next := Reduce(state, ClearVariantSelection, ambient);
      next.selectedVariantIds == [] && next.(selectedVariantIds := state.selectedVariantIds) == state
  {
  }

  /** `SET_LIVE_MESSAGE` changes the announcement only. */
  lemma LiveMessageSet(state: WorkspaceState, message: string, ambient: Ambient)
    ensures var next := Reduce(state, SetLiveMessage(message), ambient);
      next.liveMessage == message && next.(liveMessage := state.liveMessage) == state
  {
  }

  /** `CLEAR_LIVE_MESSAGE` empties the announcement only. */
  lemma LiveMessageCleared(state: WorkspaceState, ambient: Ambient)
    ensures var next := Reduce(state, ClearLiveMessage, ambient);
      next.liveMessage == "" && next.(liveMessage := state.liveMessage) == state
  {
  }

  /** `SET_TOAST` shows the toast and changes nothing else. */
  lemma ToastSet(state: WorkspaceState, toast: Toast, ambient: Ambient)
    ensures var next := Reduce(state, SetToast(toast), ambient);
      next.toast == Some(toast) && next.(toast := state.toast) == state
  {
  }

  /** `CLEAR_TOAST` removes the toast and changes nothing else. */
  lemma ToastCleared(state: WorkspaceState, ambient: Ambient)
    ensures var next := Reduce(state, ClearToast, ambient);
      next.toast.None? && next.(toast := state.toast) == state
  {
  }

  // ---------------------------------------------------------------------------
  // Upsert
  // ---------------------------------------------------------------------------

  predicate DistinctIds(entries: seq<ReviewVariant>) {
    forall i, j :: 0 <= i < j < |entries| ==> entries[i].id != entries[j].id
  }

  /** `set` with a new key appends the entry. */
  lemma {:induction false} SetEntryNew(entries: seq<ReviewVariant>, v: ReviewVariant)
    requires v.id !in Ids(entries)
    ensures SetEntry(entries, v) == entries + [v]
    decreases |entries|
  {
    if entries != [] {
      assert Ids(entries[1..]) == Ids(entries)[1..];
      SetEntryNew(entries[1..], v);
      assert entries == [entries[0]] + entries[1..];
    }
  }

  /** `set` with a key already there adds no entry. */
  lemma {:induction false} SetEntryOld(entries: seq<ReviewVariant>, v: ReviewVariant)
    requires v.id in Ids(entries)
    ensures |SetEntry(entries, v)| == |entries|
    decreases |entries|
  {
    if entries[0].id != v.id {
      assert Ids(entries[1..]) == Ids(entries)[1..];
      SetEntryOld(entries[1..], v);
    }
  }

  /** After one `set` each earlier place keeps its key, and its entry unless the key is the one set. */
  lemma {:induction false} SetEntryAt(entries: seq<ReviewVariant>, v: ReviewVariant, k: nat)
    requires k < |entries|
    ensures k < |SetEntry(entries, v)| && SetEntry(entries, v)[k].id == entries[k].id
    ensures entries[k].id != v.id ==> SetEntry(entries, v)[k] == entries[k]
    ensures DistinctIds(entries) && entries[k].id == v.id ==> SetEntry(entries, v)[k] == v
    decreases k
  {
    if entries[0].id != v.id && k > 0 {
      SetEntryAt(entries[1..], v, k - 1);
    }
  }

  /** One `set` on distinct keys: an existing key is replaced in place, a new one appended; keys stay distinct. */
  lemma SetEntryShape(entries: seq<ReviewVariant>, v: ReviewVariant)
    requires DistinctIds(entries)
    ensures var r := SetEntry(entries, v);
      && DistinctIds(r)
      && (v.id in Ids(entries) ==> |r| == |entries|)
      && (v.id !in Ids(entries) ==> r == entries + [v])
      && (forall k :: 0 <= k < |entries| ==> r[k].id == entries[k].id)
      && (forall k :: 0 <= k < |entries| && entries[k].id != v.id ==> r[k] == entries[k])
      && (forall k :: 0 <= k < |r| && r[k].id == v.id ==> r[k] == v)
      && v in r
  {
    var r := SetEntry(entries, v);
    forall k | 0 <= k < |entries|
      ensures k < |r| && r[k].id == entries[k].id
      ensures entries[k].id != v.id ==> r[k] == entries[k]
      ensures entries[k].id == v.id ==> r[k] == v
    {
      SetEntryAt(entries, v, k);
    }
    if v.id in Ids(entries) {
      SetEntryOld(entries, v);
      var i :| 0 <= i < |entries| && Ids(entries)[i] == v.id;
      assert r[i] == v;
    } else {
      SetEntryNew(entries, v);
      assert forall k :: 0 <= k < |entries| ==> entries[k].id == Ids(entries)[k];
      assert r[|entries|] == v;
    }
  }

  /** A run of `set`s keeps the ids distinct, keeps the first entries' places, and leaves an entry alone unless its id comes in. */
  lemma {:induction false} SetEntriesKeeps(entries: seq<ReviewVariant>, incoming: seq<ReviewVariant>)
    requires DistinctIds(entries)
    ensures var r := SetEntries(entries, incoming);
      && DistinctIds(r)
      && |entries| <= |r|
      && (forall k :: 0 <= k < |entries| ==> r[k].id == entries[k].id)
      && (forall k :: 0 <= k < |entries| && entries[k].id !in Ids(incoming) ==> r[k] == entries[k])
    decreases |incoming|
  {
    if incoming != [] {
      SetEntryShape(entries, incoming[0]);
      SetEntriesKeeps(SetEntry(entries, incoming[0]), incoming[1..]);
      assert Ids(incoming) == [incoming[0].id] + Ids(incoming[1..]);
    }
  }

  /** The ids of a list, as a set. */
  function IdSet(entries: seq<ReviewVariant>): set<string>
    decreases |entries|
  {
    if entries == [] then {} else {entries[0].id} + IdSet(entries[1..])
  }

  /** One `set` adds its own id to the ids and nothing else. */
  lemma {:induction false} SetEntryIdSet(entries: seq<ReviewVariant>, v: ReviewVariant)
    ensures IdSet(SetEntry(entries, v)) == IdSet(entries) + {v.id}
    decreases |entries|
  {
    if entries != [] {
      if entries[0].id == v.id {
        assert ([v] + entries[1..])[1..] == entries[1..];
      } else {
        SetEntryIdSet(entries[1..], v);
        assert ([entries[0]] + SetEntry(entries[1..], v))[1..] == SetEntry(entries[1..], v);
      }
    }
  }

  /** A run of `set`s adds exactly the incoming ids. */
  lemma {:induction false} SetEntriesIdSet(entries: seq<ReviewVariant>, incoming: seq<ReviewVariant>)
    ensures IdSet(SetEntries(entries, incoming)) == IdSet(entries) + IdSet(incoming)
    decreases |incoming|
  {
    if incoming != [] {
      SetEntryIdSet(entries, incoming[0]);
      SetEntriesIdSet(SetEntry(entries, incoming[0]), incoming[1..]);
    }
  }

  /** Setting entries whose ids are distinct and new appends them in order. */
  lemma {:induction false} SetEntriesFresh(entries: seq<ReviewVariant>, incoming: seq<ReviewVariant>)
    requires DistinctIds(entries + incoming)
    ensures SetEntries(entries, incoming) == entries + incoming
    decreases |incoming|
  {
    if incoming != [] {
      var v := incoming[0];
      assert DistinctIds(entries) by {
        assert forall i :: 0 <= i < |entries| ==> entries[i] == (entries + incoming)[i];
      }
      assert v.id !in Ids(entries) by {
        assert forall i :: 0 <= i < |entries| ==> (entries + incoming)[i] == entries[i];
        assert v == (entries + incoming)[|entries|];
      }
      SetEntryShape(entries, v);
      assert entries + incoming == (entries + [v]) + incoming[1..];
      SetEntriesFresh(entries + [v], incoming[1..]);
    }
  }

  /** The last variant of a list with the given id: the value a `Map` keeps after setting them in turn. */
  function LastWithId(vs: seq<ReviewVariant>, id: string): (r: Option<ReviewVariant>)
    ensures r.Some? ==> r.value in vs && r.value.id == id
    ensures r.None? ==> forall k :: 0 <= k < |vs| ==> vs[k].id != id
    decreases |vs|
  {
    if vs == [] then None
    else if vs[|vs| - 1].id == id then Some(vs[|vs| - 1])
    else LastWithId(vs[..|vs| - 1], id)
  }

  /** In a joined list an id takes its last value in the later part when it occurs there. */
  lemma {:induction false} LastWithIdAppend(xs: seq<ReviewVariant>, ys: seq<ReviewVariant>, id: string)
    ensures LastWithId(xs + ys, id) == if LastWithId(ys, id).Some? then LastWithId(ys, id) else LastWithId(xs, id)
    decreases |ys|
  {
    if ys == [] {
      assert xs + ys == xs;
    } else {
      var n := |ys| - 1;
      assert (xs + ys)[..|xs + ys| - 1] == xs + ys[..n];
      if ys[n].id != id {
        LastWithIdAppend(xs, ys[..n], id);
      }
    }
  }

  /** The ids not yet `known`, each once, in the order they first arrive: the keys a `Map` adds. */
  function NewIds(known: seq<string>, incoming: seq<ReviewVariant>): seq<string>
    decreases |incoming|
  {
    if incoming == [] then []
    else if incoming[0].id in known then NewIds(known, incoming[1..])
    else [incoming[0].id] + NewIds(known + [incoming[0].id], incoming[1..])
  }

  /** The new ids of a joined list: those of the first part, then those of the second not met before. */
  lemma {:induction false} NewIdsAppend(known: seq<string>, xs: seq<ReviewVariant>, ys: seq<ReviewVariant>)
    ensures NewIds(known, xs + ys) == NewIds(known, xs) + NewIds(known + NewIds(known, xs), ys)
    decreases |xs|
  {
    if xs == [] {
      assert xs + ys == ys;
      assert known + [] == known;
    } else {
      assert (xs + ys)[0] == xs[0] && (xs + ys)[1..] == xs[1..] + ys;
      if xs[0].id in known {
        NewIdsAppend(known, xs[1..], ys);
      } else {
        NewIdsAppend(known + [xs[0].id], xs[1..], ys);
        assert known + [xs[0].id] + NewIds(known + [xs[0].id], xs[1..]) == known + NewIds(known, xs);
      }
    }
  }

  /** One `set` on distinct keys leaves the keys as they were, or appends the new one. */
  lemma SetEntryIds(entries: seq<ReviewVariant>, v: ReviewVariant)
    requires DistinctIds(entries)
    ensures var r := SetEntry(entries, v);
      && DistinctIds(r)
      && Ids(r) == if v.id in Ids(entries) then Ids(entries) else Ids(entries) + [v.id]
  {
    var r := SetEntry(entries, v);
    SetEntryShape(entries, v);
    if v.id in Ids(entries) {
      assert forall k :: 0 <= k < |r| ==> Ids(r)[k] == Ids(entries)[k];
    } else {
      assert forall k :: 0 <= k < |r| ==> Ids(r)[k] == (Ids(entries) + [v.id])[k];
    }
  }

  /** A run of `set`s on distinct keys keeps the old keys in place and appends the new ones as they first arrive. */
  lemma {:induction false} SetEntriesOrder(entries: seq<ReviewVariant>, incoming: seq<ReviewVariant>)
    requires DistinctIds(entries)
    ensures Ids(SetEntries(entries, incoming)) == Ids(entries) + NewIds(Ids(entries), incoming)
    decreases |incoming|
  {
    if incoming == [] {
      assert Ids(entries) + [] == Ids(entries);
    } else {
      var v := incoming[0];
      var next := SetEntry(entries, v);
      SetEntryIds(entries, v);
      SetEntriesOrder(next, incoming[1..]);
    }
  }

  /** The last variant with an id, once one more variant has come. */
  lemma LastWithIdSnoc(history: seq<ReviewVariant>, v: ReviewVariant, id: string)
    ensures LastWithId(history + [v], id) == if v.id == id then Some(v) else LastWithId(history, id)
  {
    assert (history + [v])[..|history + [v]| - 1] == history;
  }

  /** One `set` on distinct keys: the entry at `k` holds the last variant with its key, the one just set included. */
  lemma SetEntryLatestAt(entries: seq<ReviewVariant>, v: ReviewVariant, history: seq<ReviewVariant>, k: nat)
    requires DistinctIds(entries)
    requires forall j :: 0 <= j < |entries| ==> LastWithId(history, entries[j].id) == Some(entries[j])
    requires k < |SetEntry(entries, v)|
    ensures LastWithId(history + [v], SetEntry(entries, v)[k].id) == Some(SetEntry(entries, v)[k])
  {
    var r := SetEntry(entries, v);
    if k < |entries| {
      SetEntryAt(entries, v, k);
      LastWithIdSnoc(history, v, entries[k].id);
    } else {
      if v.id in Ids(entries) {
        SetEntryOld(entries, v);
      }
      SetEntryNew(entries, v);
      assert r[k] == v;
      LastWithIdSnoc(history, v, v.id);
    }
  }

  /** Each entry holds the last variant of `history` with its key. */
  predicate Latest(entries: seq<ReviewVariant>, history: seq<ReviewVariant>) {
    forall k :: 0 <= k < |entries| ==> LastWithId(history, entries[k].id) == Some(entries[k])
  }

  /** One `set` on distinct keys keeps them distinct, and each entry the last variant with its key. */
  lemma SetEntryLatest(entries: seq<ReviewVariant>, v: ReviewVariant, history: seq<ReviewVariant>)
    requires DistinctIds(entries) && Latest(entries, history)
    ensures DistinctIds(SetEntry(entries, v)) && Latest(SetEntry(entries, v), history + [v])
  {
    var r := SetEntry(entries, v);
    SetEntryIds(entries, v);
    forall k | 0 <= k < |r|
      ensures LastWithId(history + [v], r[k].id) == Some(r[k])
    {
      SetEntryLatestAt(entries, v, history, k);
    }
  }

  /** After a run of `set`s on distinct keys each entry holds the last variant with its key among all that were set. */
  lemma {:induction false} SetEntriesLatest(entries: seq<ReviewVariant>, incoming: seq<ReviewVariant>, history: seq<ReviewVariant>)
    requires DistinctIds(entries) && Latest(entries, history)
    ensures Latest(SetEntries(entries, incoming), history + incoming)
    decreases |incoming|
  {
    if incoming == [] {
      assert history + incoming == history;
    } else {
      var v := incoming[0];
      SetEntryLatest(entries, v, history);
      SetEntriesLatest(SetEntry(entries, v), incoming[1..], history + [v]);
      assert incoming == [v] + incoming[1..];
      assert history + [v] + incoming[1..] == history + incoming;
    }
  }

  /** What `Upsert` promises, stated on the two runs of `set`s it makes. */
  lemma UpsertEntries(existing: seq<ReviewVariant>, incoming: seq<ReviewVariant>)
    ensures var r := SetEntries(SetEntries([], existing), incoming);
      && Ids(r) == NewIds([], existing + incoming)
      && forall k :: 0 <= k < |r| ==> LastWithId(existing + incoming, r[k].id) == Some(r[k])
  {
    var base := SetEntries([], existing);
    assert DistinctIds([]);
    assert Ids([]) == [];
    SetEntriesKeeps([], existing);
    SetEntriesOrder([], existing);
    assert Ids(base) == NewIds([], existing);
    SetEntriesOrder(base, incoming);
    NewIdsAppend([], existing, incoming);
    assert [] + NewIds([], existing) == NewIds([], existing);
    SetEntriesLatest([], existing, []);
    assert [] + existing == existing;
    SetEntriesLatest(base, incoming, existing);
  }

  /**
   * `UPSERT_REVIEW_VARIANTS`: the ids of the new list are distinct, and they
   * are exactly the old ids and the incoming ones.
   */
  lemma UpsertIds(existing: seq<ReviewVariant>, incoming: seq<ReviewVariant>)
    ensures DistinctIds(Upsert(existing, incoming))
    ensures IdSet(Upsert(existing, incoming)) == IdSet(existing) + IdSet(incoming)
  {
    var base := SetEntries([], existing);
    SetEntriesKeeps([], existing);
    SetEntriesKeeps(base, incoming);
    SetEntriesIdSet([], existing);
    SetEntriesIdSet(base, incoming);
  }

  /**
   * An old list with distinct ids keeps its order; an entry whose id does not
   * come in is kept as it was, one whose id does holds the last incoming
   * variant with it, and the new ids follow in the order they first came.
   */
  lemma UpsertKeepsOrder(existing: seq<ReviewVariant>, incoming: seq<ReviewVariant>)
    requires DistinctIds(existing)
    ensures var r := Upsert(existing, incoming);
      && |existing| <= |r|
      && (forall k :: 0 <= k < |existing| ==> r[k].id == existing[k].id)
      && (forall k :: 0 <= k < |existing| && existing[k].id !in Ids(incoming) ==> r[k] == existing[k])
      && (forall k :: 0 <= k < |existing| && existing[k].id in Ids(incoming) ==> LastWithId(incoming, existing[k].id) == Some(r[k]))
      && Ids(r) == Ids(existing) + NewIds(Ids(existing), incoming)
  {
    var r := Upsert(existing, incoming);
    assert [] + existing == existing;
    SetEntriesFresh([], existing);
    SetEntriesKeeps(existing, incoming);
    SetEntriesOrder(existing, incoming);
    forall k | 0 <= k < |existing| && existing[k].id in Ids(incoming)
      ensures LastWithId(incoming, existing[k].id) == Some(r[k])
    {
      LastWithIdAppend(existing, incoming, r[k].id);
    }
  }

  /** Variants with new, distinct ids are appended after the old list in the order they came. */
  lemma UpsertAppendsNew(existing: seq<ReviewVariant>, incoming: seq<ReviewVariant>)
    requires DistinctIds(existing + incoming)
    ensures Upsert(existing, incoming) == existing + incoming
  {
    assert DistinctIds(existing) by {
      assert forall i :: 0 <= i < |existing| ==> existing[i] == (existing + incoming)[i];
    }
    assert [] + existing == existing;
    SetEntriesFresh([], existing);
    SetEntriesFresh(existing, incoming);
  }
}
