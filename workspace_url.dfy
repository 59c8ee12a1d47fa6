/**
 * The workspace's address-bar state: the `view`, `step` and `debug` query
 * parameters, how the workspace reads them when it opens or when the address
 * changes, how it writes them back, and the message shown for a thrown error.
 */
module WorkspaceUrl {
  import opened Wrappers
  import opened Strings
  import opened Workspace
  import Microcopy

  /** The query parameters, by name; a repeated parameter is not modelled. */
  type Query = map<string, string>

  /** `searchParams.get(name)`. */
  function Get(query: Query, name: string): (r: Option<string>)
    ensures r.Some? <==> name in query
    ensures r.Some? ==> r.value == query[name]
  {
    if name in query then Some(query[name]) else None
  }

  /** The name a view has in the address. */
  function ViewName(view: AppView): string {
    match view
    case Dashboard => "dashboard"
    case Campaign => "campaign"
    case Generate => "generate"
    case Review => "review"
  }

  /** `parseView`: nothing for a missing or empty value or for a name that is not one of the four views. */
  function ParseView(value: Option<string>): (r: Option<AppView>)
    ensures value == None || value == Some("") ==> r == None
    ensures r.Some? ==> value == Some(ViewName(r.value))
  {
    if value.None? || value.value == "" then None
    else if value.value == "dashboard" then Some(Dashboard)
    else if value.value == "campaign" then Some(Campaign)
    else if value.value == "generate" then Some(Generate)
    else if value.value == "review" then Some(Review)
    else None
  }

  /** Every view is read back from its own name. */
  lemma ParseViewName(view: AppView)
    ensures ParseView(Some(ViewName(view))) == Some(view)
  {
  }

  /** `parseStep`: nothing for a missing or empty value or one that is not an integer; otherwise the integer clamped into 1..6. `number` is `Number(text)`. */
  function ParseStep(value: Option<string>, number: string -> JsNumber): (r: Option<int>)
    ensures value == None || value == Some("") ==> r == None
    ensures value.Some? && value.value != "" ==> (r.Some? <==> number(value.value).IsInteger())
    ensures r.Some? ==> 1 <= r.value <= 6
    ensures r.Some? && 1.0 <= number(value.value).value <= 6.0 ==> r.value as real == number(value.value).value
  {
    if value.None? || value.value == "" then None
    else
      var parsed := number(value.value);
      if !parsed.IsInteger() then None
      else Some(MaxInt(1, MinInt(parsed.value.Floor, 6)))
  }

  /** `Number` reads every decimal rendering of a natural number as that number. */
  ghost predicate ReadsDecimals(number: string -> JsNumber) {
    forall n: nat :: number(NatToString(n)) == Finite(n as real)
  }

  /** `toUserMessage`: an `ApiError`'s message, even an empty one; another `Error`'s message when it is not empty; else the fallback. */
  function ToUserMessage(error: Thrown, fallback: string): (r: string)
    ensures error.ErrorInstance? && error.isApiError ==> r == error.message
    ensures error.ErrorInstance? && !error.isApiError && error.message != "" ==> r == error.message
    ensures error.NonErrorValue? || (!error.isApiError && error.message == "") ==> r == fallback
  {
    if error.ErrorInstance? && error.isApiError then error.message
    else if error.ErrorInstance? && error.message != "" then error.message
    else fallback
  }

  /** The message shown is never empty unless an `ApiError` carried an empty one or the fallback is empty. */
  lemma UserMessageNonEmpty(error: Thrown, fallback: string)
    requires fallback != ""
    requires !(error.ErrorInstance? && error.isApiError && error.message == "")
    ensures ToUserMessage(error, fallback) != ""
  {
  }

  /** The address the workspace writes for a state: its view, its one-based step on the campaign view only, and `debug=1` in debug mode. */
  function WriteQuery(query: Query, state: WorkspaceState): (next: Query)
    ensures Get(next, "view") == Some(ViewName(state.view))
    ensures state.view == Campaign ==> Get(next, "step") == Some(IntToString(state.wizardStep + 1))
    ensures state.view != Campaign ==> Get(next, "step") == None
    ensures state.debugMode ==> Get(next, "debug") == Some("1")
    ensures !state.debugMode ==> Get(next, "debug") == Get(query, "debug")
    ensures forall name :: name !in {"view", "step", "debug"} ==> Get(next, name) == Get(query, name)
  {
    var withView := query["view" := ViewName(state.view)];
    var withStep := if state.view == Campaign then withView["step" := IntToString(state.wizardStep + 1)]
                    else withView - {"step"};
    if state.debugMode then withStep["debug" := "1"] else withStep
  }

  /** The actions an address change dispatches: navigate when it names another view; then, on the campaign view, move to a step it names when that differs from the current one. */
  function QueryActions(query: Query, state: WorkspaceState, number: string -> JsNumber): (actions: seq<Action>)
    ensures |actions| <= 2
    ensures ParseView(Get(query, "view")) == None ==> actions == []
  {
    var queryView := ParseView(Get(query, "view"));
    var queryStep := ParseStep(Get(query, "step"), number);
    (if queryView.Some? && queryView.value != state.view then [NavigateView(queryView.value, None)] else [])
    + (if queryView == Some(Campaign) && queryStep.Some? && queryStep.value - 1 != state.wizardStep
       then [SetWizardStep(queryStep.value - 1)] else [])
  }

  /** The state after the reducer took each action in turn. */
  function ReduceAll(state: WorkspaceState, actions: seq<Action>, ambient: Ambient): WorkspaceState
    decreases |actions|
  {
    if actions == [] then state else ReduceAll(Reduce(state, actions[0], ambient), actions[1..], ambient)
  }

  /** After the dispatched actions the workspace shows the view the address names, and on the campaign view the step it names. */
  lemma QueryActionsFollowAddress(query: Query, state: WorkspaceState, number: string -> JsNumber, ambient: Ambient)
    requires ParseView(Get(query, "view")).Some?
    ensures var next := ReduceAll(state, QueryActions(query, state, number), ambient);
      next.view == ParseView(Get(query, "view")).value
      && (ParseView(Get(query, "view")) == Some(Campaign) && ParseStep(Get(query, "step"), number).Some?
          ==> next.wizardStep == ParseStep(Get(query, "step"), number).value - 1)
      && (ParseView(Get(query, "view")) != Some(Campaign) || ParseStep(Get(query, "step"), number).None?
          ==> next.wizardStep == state.wizardStep)
  {
    var actions := QueryActions(query, state, number);
    if |actions| == 2 {
      var first := Reduce(state, actions[0], ambient);
      assert actions[1..] == [actions[1]];
      assert [actions[1]][1..] == [];
      assert ReduceAll(first, [actions[1]], ambient) == ReduceAll(Reduce(first, actions[1], ambient), [], ambient);
    } else if |actions| == 1 {
      assert ReduceAll(state, actions, ambient) == Reduce(state, actions[0], ambient);
    }
  }

  /** The one-based step written for a wizard step in range is read back as that step plus one. */
  lemma StepRoundTrip(wizardStep: int, number: string -> JsNumber)
    requires 0 <= wizardStep <= LastStep && ReadsDecimals(number)
    ensures ParseStep(Some(IntToString(wizardStep + 1)), number) == Some(wizardStep + 1)
  {
    assert number(NatToString(wizardStep + 1)) == Finite((wizardStep + 1) as real);
  }

  /** An address the workspace wrote for a state asks nothing of that state: reading it back dispatches no action. */
  lemma WrittenQueryIsSettled(query: Query, state: WorkspaceState, number: string -> JsNumber)
    requires 0 <= state.wizardStep <= LastStep && ReadsDecimals(number)
    ensures QueryActions(WriteQuery(query, state), state, number) == []
  {
    ParseViewName(state.view);
    StepRoundTrip(state.wizardStep, number);
  }

  /** The options the workspace opens with: the address's view, else the saved one; its step, else step 1; debug mode iff `debug=1`. */
  function InitialOptions(query: Query, preferences: WorkspacePreferences, number: string -> JsNumber): (options: InitOptions)
    ensures ParseView(Get(query, "view")).Some? ==> options.initialView == ParseView(Get(query, "view")).value
    ensures ParseView(Get(query, "view")).None? ==> options.initialView == preferences.lastView
    ensures ParseStep(Get(query, "step"), number).Some? ==> options.initialStep == ParseStep(Get(query, "step"), number).value
    ensures ParseStep(Get(query, "step"), number).None? ==> options.initialStep == 1
    ensures options.preferences == preferences
    ensures options.debugMode <==> Get(query, "debug") == Some("1")
  {
    InitOptions(
      ParseView(Get(query, "view")).GetOr(preferences.lastView),
      ParseStep(Get(query, "step"), number).GetOr(1),
      preferences,
      Get(query, "debug") == Some("1"))
  }

  /**
   * Reopening the workspace at the address it wrote restores its view, its
   * debug mode and, on the campaign view, its wizard step. The preferences
   * are whatever was saved.
   */
  lemma ReopenRestores(query: Query, state: WorkspaceState, preferences: WorkspacePreferences,
                       number: string -> JsNumber, loadingDraw: Microcopy.Unit)
    requires 0 <= state.wizardStep <= LastStep && ReadsDecimals(number)
    ensures var reopened := InitialState(InitialOptions(WriteQuery(query, state), preferences, number), loadingDraw);
      reopened.view == state.view
      && (state.view == Campaign ==> reopened.wizardStep == state.wizardStep)
      && (state.debugMode ==> reopened.debugMode)
  {
    ParseViewName(state.view);
    StepRoundTrip(state.wizardStep, number);
  }

  /**
   * As written, reopening the campaign view at the address written for any
   * wizard step but the last lands one step further on: the one-based step
   * is read as a zero-based one.
   */
  lemma ReopenAsWrittenAdvances(query: Query, state: WorkspaceState, preferences: WorkspacePreferences,
                                number: string -> JsNumber, loadingDraw: Microcopy.Unit)
    requires state.view == Campaign && 0 <= state.wizardStep < LastStep && ReadsDecimals(number)
    ensures InitialStateAsWritten(InitialOptions(WriteQuery(query, state), preferences, number), loadingDraw).wizardStep
            == state.wizardStep + 1
  {
    ParseViewName(state.view);
    StepRoundTrip(state.wizardStep, number);
  }
}
