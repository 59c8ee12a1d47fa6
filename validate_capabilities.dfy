/**
 * The capability validation script: it runs a normal scenario and, when
 * enabled, two provider failover scenarios against a deployed API, tallies
 * which providers produced each scenario's variants, and decides whether the
 * run passes. Each scenario's remote run is an abstract outcome.
 */
module ValidateCapabilities {
  import opened Wrappers
  import opened Strings

  /** A generated variant as the script reads it: the providers recorded for its copy and its image. */
  datatype VariantRecord = VariantRecord(providerCopy: Option<string>, providerImage: Option<string>)

  // ---------------------------------------------------------------------------
  // Provider tallies
  // ---------------------------------------------------------------------------

  /** The provider name a variant is counted under: `?? 'unknown'`. */
  function CopyName(v: VariantRecord): string { v.providerCopy.GetOr("unknown") }

  function ImageName(v: VariantRecord): string { v.providerImage.GetOr("unknown") }

  /** How many variants of a list a name is counted for. */
  function CountOf(names: seq<string>, name: string): (n: nat)
    ensures n <= |names|
    ensures n > 0 <==> name in names
  {
    if names == [] then 0
    else CountOf(names[..|names| - 1], name) + (if names[|names| - 1] == name then 1 else 0)
  }

  /** The names of a list, one per variant. */
  function CopyNames(variants: seq<VariantRecord>): (names: seq<string>)
    ensures |names| == |variants| && forall i :: 0 <= i < |variants| ==> names[i] == CopyName(variants[i])
  {
    if variants == [] then [] else CopyNames(variants[..|variants| - 1]) + [CopyName(variants[|variants| - 1])]
  }

  function ImageNames(variants: seq<VariantRecord>): (names: seq<string>)
    ensures |names| == |variants| && forall i :: 0 <= i < |variants| ==> names[i] == ImageName(variants[i])
  {
    if variants == [] then [] else ImageNames(variants[..|variants| - 1]) + [ImageName(variants[|variants| - 1])]
  }

  /** A tally of names: every name that occurs, with how often. */
  function Tally(names: seq<string>): (m: map<string, nat>)
    ensures forall name :: name in m <==> name in names
    ensures forall name :: name in m ==> m[name] == CountOf(names, name)
  {
    if names == [] then map[]
    else
      var before := Tally(names[..|names| - 1]);
      var last := names[|names| - 1];
      assert forall name :: name in names <==> name in names[..|names| - 1] || name == last;
      Bump(before, last)
  }

  /** `counts[name] = (counts[name] ?? 0) + 1`. */
  function Bump(counts: map<string, nat>, name: string): map<string, nat> {
    counts[name := (if name in counts then counts[name] else 0) + 1]
  }

  /** `summarizeProviders`: the copy and image provider tallies of a list of variants. */
  datatype ProviderSummary = ProviderSummary(copyProviders: map<string, nat>, imageProviders: map<string, nat>)

  /** `summarizeProviders` as the script runs it: one pass, bumping two counters per variant. */
  method SummarizeProviders(variants: seq<VariantRecord>) returns (summary: ProviderSummary)
    ensures summary.copyProviders == Tally(CopyNames(variants))
    ensures summary.imageProviders == Tally(ImageNames(variants))
  {
    var copyProviders: map<string, nat> := map[];
    var imageProviders: map<string, nat> := map[];
    var i := 0;
    while i < |variants|
      invariant 0 <= i <= |variants|
      invariant copyProviders == Tally(CopyNames(variants[..i]))
      invariant imageProviders == Tally(ImageNames(variants[..i]))
    {
      NamesStep(variants, i);
      var copyProvider := CopyName(variants[i]);
      var imageProvider := ImageName(variants[i]);
      copyProviders := Bump(copyProviders, copyProvider);
      imageProviders := Bump(imageProviders, imageProvider);
      i := i + 1;
    }
    assert variants[..|variants|] == variants;
    summary := ProviderSummary(copyProviders, imageProviders);
  }

  /** One more variant bumps each tally under its names. */
  lemma NamesStep(variants: seq<VariantRecord>, i: nat)
    requires i < |variants|
    ensures Tally(CopyNames(variants[..i + 1])) == Bump(Tally(CopyNames(variants[..i])), CopyName(variants[i]))
    ensures Tally(ImageNames(variants[..i + 1])) == Bump(Tally(ImageNames(variants[..i])), ImageName(variants[i]))
  {
    assert variants[..i + 1][..i] == variants[..i];
    assert CopyNames(variants[..i + 1]) == CopyNames(variants[..i]) + [CopyName(variants[i])];
    assert ImageNames(variants[..i + 1]) == ImageNames(variants[..i]) + [ImageName(variants[i])];
    TallyAppend(CopyNames(variants[..i]), CopyName(variants[i]));
    TallyAppend(ImageNames(variants[..i]), ImageName(variants[i]));
  }

  /** A tally of one more name. */
  lemma TallyAppend(names: seq<string>, name: string)
    ensures Tally(names + [name]) == Bump(Tally(names), name)
  {
    assert (names + [name])[..|names|] == names;
  }

  /** The sum of a tally's counts. */
  ghost function Total(m: map<string, nat>): nat
    decreases |m|
  {
    if m == map[] then 0
    else
      var k :| k in m;
      m[k] + Total(m - {k})
  }

  /** Any key may be taken out first: the sum does not depend on the order. */
  lemma {:induction false} TotalWithout(m: map<string, nat>, k: string)
    requires k in m
    ensures Total(m) == m[k] + Total(m - {k})
    decreases |m|
  {
    var j :| j in m && Total(m) == m[j] + Total(m - {j});
    if j != k {
      var rest := m - {j};
      assert k in rest;
      TotalWithout(rest, k);
      TotalWithout(m - {k}, j);
      assert rest - {k} == (m - {k}) - {j};
    }
  }

  /** Bumping one count raises the sum by one. */
  lemma TotalBump(m: map<string, nat>, k: string)
    ensures Total(Bump(m, k)) == Total(m) + 1
  {
    var bumped := Bump(m, k);
    TotalWithout(bumped, k);
    assert bumped - {k} == m - {k};
    if k in m {
      TotalWithout(m, k);
    } else {
      assert m - {k} == m;
    }
  }

  /** Every variant is counted exactly once in a tally. */
  lemma {:induction false} TallyTotal(names: seq<string>)
    ensures Total(Tally(names)) == |names|
  {
    if names != [] {
      TallyTotal(names[..|names| - 1]);
      TotalBump(Tally(names[..|names| - 1]), names[|names| - 1]);
    }
  }

  /** Each of the two tallies counts every variant exactly once; a variant without a provider is counted as `unknown`. */
  lemma SummaryCountsEveryVariant(variants: seq<VariantRecord>, i: nat)
    requires i < |variants|
    ensures Total(Tally(CopyNames(variants))) == |variants| && Total(Tally(ImageNames(variants))) == |variants|
    ensures variants[i].providerCopy == None ==> "unknown" in Tally(CopyNames(variants))
    ensures variants[i].providerImage == None ==> "unknown" in Tally(ImageNames(variants))
  {
    TallyTotal(CopyNames(variants));
    TallyTotal(ImageNames(variants));
    assert CopyNames(variants)[i] == CopyName(variants[i]);
    assert ImageNames(variants)[i] == ImageName(variants[i]);
  }

  /** A variant whose copy or image did not come from the fallback provider; a missing provider is not the fallback. */
  predicate UsesRealProvider(v: VariantRecord) {
    v.providerCopy != Some("fallback") || v.providerImage != Some("fallback")
  }

  /** `hasRealProvider`: some variant's copy or image came from a provider other than the fallback; a missing provider is not the fallback. */
  function HasRealProvider(variants: seq<VariantRecord>): (real_: bool)
    ensures real_ <==> exists i :: 0 <= i < |variants| && UsesRealProvider(variants[i])
  {
    if variants == [] then false
    else UsesRealProvider(variants[0]) || (assert forall i :: 0 < i < |variants| ==> variants[i] == variants[1..][i - 1]; HasRealProvider(variants[1..]))
  }

  // ---------------------------------------------------------------------------
  // Scenarios and the verdict
  // ---------------------------------------------------------------------------

  datatype Scenario = Scenario(id: string, testMode: Option<string>)

  const Normal := Scenario("normal", None)
  const CopyFailover := Scenario("copy-primary-failover", Some("force_copy_primary_failure"))
  const ImageFailover := Scenario("image-primary-failover", Some("force_image_primary_failure"))

  /** The scenarios run: the normal one, then the two failover ones when they are enabled. */
  function Scenarios(runFailoverScenarios: bool): (s: seq<Scenario>)
    ensures |s| >= 1 && s[0] == Normal
    ensures |s| == (if runFailoverScenarios then 3 else 1)
    ensures runFailoverScenarios ==> s[1] == CopyFailover && s[2] == ImageFailover
  {
    [Normal] + (if runFailoverScenarios then [CopyFailover, ImageFailover] else [])
  }

  /** What running one scenario against the API came to: its report, or the message of what it threw. */
  datatype ScenarioOutcome =
    | Succeeded(variantsGenerated: nat, providers: ProviderSummary, hasRealProvider: bool)
    | Threw(message: string)

  /** One entry of `results`: a completed scenario, or a failover scenario skipped because the API refuses test modes. */
  datatype ScenarioResult =
    | Passed(scenarioId: string, variantsGenerated: nat, providers: ProviderSummary, hasRealProvider: bool)
    | Skipped(scenarioId: string, reason: string)
  {
    predicate Ok() { Passed? }
  }

  /** The whole loop over scenarios: every entry, or the error it stopped on. */
  datatype RunOutcome = Completed(results: seq<ScenarioResult>) | Rethrown(error: string)

  /** `String.prototype.toLowerCase` on ASCII letters. */
  function Lower(s: string): (r: string)
    ensures |r| == |s| && forall k :: 0 <= k < |s| ==> r[k] == LowerAscii(s[k])
  {
    if s == [] then [] else [LowerAscii(s[0])] + Lower(s[1..])
  }

  const TestModeDisabled := "provider test mode is disabled"

  /** A thrown scenario is skipped when it asked for a test mode and the message says, in any case, that test modes are disabled. */
  predicate SkipsOnError(scenario: Scenario, message: string) {
    scenario.testMode.Some? && scenario.testMode.value != "" && Contains(Lower(message), TestModeDisabled)
  }

  /** What the loop does with one scenario's outcome: a result to append, or the error to rethrow. */
  function Settle(scenario: Scenario, outcome: ScenarioOutcome): (r: Result)
    ensures outcome.Succeeded? ==> r == Append(Passed(scenario.id, outcome.variantsGenerated, outcome.providers, outcome.hasRealProvider))
    ensures outcome.Threw? ==> (r.Append? <==> SkipsOnError(scenario, outcome.message))
    ensures outcome.Threw? && !SkipsOnError(scenario, outcome.message) ==> r == Stop(outcome.message)
    ensures r.Append? && outcome.Threw? ==> r.entry == Skipped(scenario.id, "Provider test mode is disabled on the Worker environment.")
  {
    match outcome
    case Succeeded(n, providers, real_) => Append(Passed(scenario.id, n, providers, real_))
    case Threw(message) =>
      if SkipsOnError(scenario, message) then Append(Skipped(scenario.id, "Provider test mode is disabled on the Worker environment."))
      else Stop(message)
  }

  datatype Result = Append(entry: ScenarioResult) | Stop(message: string)

  /** The loop from scenario `i` on, with the entries gathered so far. */
  function RunFrom(scenarios: seq<Scenario>, outcomeOf: Scenario -> ScenarioOutcome, i: nat, results: seq<ScenarioResult>): RunOutcome
    requires i <= |scenarios|
    decreases |scenarios| - i
  {
    if i == |scenarios| then Completed(results)
    else match Settle(scenarios[i], outcomeOf(scenarios[i]))
      case Append(entry) => RunFrom(scenarios, outcomeOf, i + 1, results + [entry])
      case Stop(message) => Rethrown(message)
  }

  /** The scenario loop of `main`. */
  method RunScenarios(scenarios: seq<Scenario>, outcomeOf: Scenario -> ScenarioOutcome) returns (r: RunOutcome)
    ensures r == RunFrom(scenarios, outcomeOf, 0, [])
  {
    var results: seq<ScenarioResult> := [];
    var i := 0;
    while i < |scenarios|
      invariant 0 <= i <= |scenarios|
      invariant RunFrom(scenarios, outcomeOf, i, results) == RunFrom(scenarios, outcomeOf, 0, [])
    {
      var settled := Settle(scenarios[i], outcomeOf(scenarios[i]));
      if settled.Stop? {
        return Rethrown(settled.message);
      }
      results := results + [settled.entry];
      i := i + 1;
    }
    r := Completed(results);
  }

  /** Every completed loop keeps one entry per scenario, in order. */
  lemma {:induction false} RunFromEntries(scenarios: seq<Scenario>, outcomeOf: Scenario -> ScenarioOutcome, i: nat, results: seq<ScenarioResult>)
    requires i <= |scenarios| && |results| == i
    requires forall j :: 0 <= j < i ==> results[j].scenarioId == scenarios[j].id
    ensures var r := RunFrom(scenarios, outcomeOf, i, results);
      r.Completed? ==> |r.results| == |scenarios| && forall j :: 0 <= j < |scenarios| ==> r.results[j].scenarioId == scenarios[j].id
    decreases |scenarios| - i
  {
    if i < |scenarios| {
      var settled := Settle(scenarios[i], outcomeOf(scenarios[i]));
      if settled.Append? {
        RunFromEntries(scenarios, outcomeOf, i + 1, results + [settled.entry]);
      }
    }
  }

  /** The normal scenario asks for no test mode, so it is never skipped: a completed run starts with its passed entry. */
  lemma NormalPassesFirst(runFailoverScenarios: bool, outcomeOf: Scenario -> ScenarioOutcome)
    ensures var r := RunFrom(Scenarios(runFailoverScenarios), outcomeOf, 0, []);
      r.Completed? ==> |r.results| >= 1 && r.results[0].Passed? && r.results[0].scenarioId == "normal"
    ensures outcomeOf(Normal).Threw? ==> RunFrom(Scenarios(runFailoverScenarios), outcomeOf, 0, []) == Rethrown(outcomeOf(Normal).message)
  {
    var scenarios := Scenarios(runFailoverScenarios);
    RunFromEntries(scenarios, outcomeOf, 0, []);
    if outcomeOf(Normal).Succeeded? {
      var entry := Settle(Normal, outcomeOf(Normal)).entry;
      assert [] + [entry] == [entry];
      assert RunFrom(scenarios, outcomeOf, 0, []) == RunFrom(scenarios, outcomeOf, 1, [entry]);
      RunFromKeeps(scenarios, outcomeOf, 1, [entry]);
    }
  }

  /** The loop only appends: a completed run keeps the entries it started with. */
  lemma {:induction false} RunFromKeeps(scenarios: seq<Scenario>, outcomeOf: Scenario -> ScenarioOutcome, i: nat, results: seq<ScenarioResult>)
    requires i <= |scenarios|
    ensures var r := RunFrom(scenarios, outcomeOf, i, results);
      r.Completed? ==> |r.results| >= |results| && r.results[..|results|] == results
    decreases |scenarios| - i
  {
    if i < |scenarios| {
      var settled := Settle(scenarios[i], outcomeOf(scenarios[i]));
      if settled.Append? {
        RunFromKeeps(scenarios, outcomeOf, i + 1, results + [settled.entry]);
        var r := RunFrom(scenarios, outcomeOf, i, results);
        if r.Completed? {
          assert r.results[..|results| + 1][..|results|] == r.results[..|results|];
        }
      }
    }
  }

  /** The first entry for a scenario id. */
  function Find(results: seq<ScenarioResult>, id: string): (r: Option<ScenarioResult>)
    ensures r.Some? ==> r.value in results && r.value.scenarioId == id
    ensures r.None? <==> forall e :: e in results ==> e.scenarioId != id
    ensures |results| > 0 && results[0].scenarioId == id ==> r == Some(results[0])
  {
    if results == [] then None
    else if results[0].scenarioId == id then Some(results[0])
    else Find(results[1..], id)
  }

  /** A failover entry that used the provider it should have failed over from. */
  predicate UsedPrimary(entry: ScenarioResult) {
    entry.Passed?
    && ((entry.scenarioId == "copy-primary-failover" && "anthropic" in entry.providers.copyProviders)
        || (entry.scenarioId == "image-primary-failover" && "openai" in entry.providers.imageProviders))
  }

  /** The first failover entry that used its primary provider, with the error it raises. */
  function FailoverError(results: seq<ScenarioResult>): (error: Option<string>)
    ensures error.None? <==> forall e :: e in results ==> !UsedPrimary(e)
  {
    if results == [] then None
    else if UsedPrimary(results[0]) then
      if results[0].scenarioId == "copy-primary-failover" then Some("copy-primary-failover scenario unexpectedly used anthropic provider.")
      else Some("image-primary-failover scenario unexpectedly used openai provider.")
    else FailoverError(results[1..])
  }

  /** The checks after the loop: the error the run ends with, or `None` when validation passed. */
  function Verdict(results: seq<ScenarioResult>, requireRealProvider: bool): (error: Option<string>)
    ensures error.None? <==>
      Find(results, "normal").Some? && Find(results, "normal").value.Passed?
      && (requireRealProvider ==> Find(results, "normal").value.hasRealProvider)
      && forall e :: e in results ==> !UsedPrimary(e)
  {
    var normal := Find(results, "normal");
    if normal.None? || !normal.value.Ok() then Some("Normal scenario did not complete successfully.")
    else if requireRealProvider && !normal.value.hasRealProvider then
      Some("Normal scenario used fallback-only providers. Configure provider API keys before capability testing.")
    else FailoverError(results)
  }

  /** A failover scenario whose copy came from the primary copy provider fails the run. */
  lemma CopyFailoverUsingAnthropicFails(results: seq<ScenarioResult>, requireRealProvider: bool, k: nat)
    requires k < |results| && results[k].Passed? && results[k].scenarioId == "copy-primary-failover"
    requires "anthropic" in results[k].providers.copyProviders
    ensures Verdict(results, requireRealProvider).Some?
  {
    assert UsedPrimary(results[k]) && results[k] in results;
  }

  /** A failover scenario whose image came from the primary image provider fails the run. */
  lemma ImageFailoverUsingOpenAiFails(results: seq<ScenarioResult>, requireRealProvider: bool, k: nat)
    requires k < |results| && results[k].Passed? && results[k].scenarioId == "image-primary-failover"
    requires "openai" in results[k].providers.imageProviders
    ensures Verdict(results, requireRealProvider).Some?
  {
    assert UsedPrimary(results[k]) && results[k] in results;
  }

  /** `REQUIRE_REAL_PROVIDER` and `RUN_FAILOVER_SCENARIOS`: on unless set to exactly `false`. */
  function Enabled(setting: Option<string>): (on: bool)
    ensures !on <==> setting == Some("false")
  {
    setting != Some("false")
  }

  /** With failover scenarios off, a run passes exactly when the normal scenario completed with a real provider, or one is not required. */
  lemma WithoutFailoverVerdict(outcomeOf: Scenario -> ScenarioOutcome, requireRealProvider: bool)
    requires RunFrom(Scenarios(false), outcomeOf, 0, []).Completed?
    ensures var results := RunFrom(Scenarios(false), outcomeOf, 0, []).results;
      Verdict(results, requireRealProvider).None? <==>
        !requireRealProvider || (outcomeOf(Normal).Succeeded? && outcomeOf(Normal).hasRealProvider)
  {
    NormalPassesFirst(false, outcomeOf);
    var results := RunFrom(Scenarios(false), outcomeOf, 0, []).results;
    RunFromEntries(Scenarios(false), outcomeOf, 0, []);
    assert results == [results[0]];
    assert !UsedPrimary(results[0]);
  }
}
