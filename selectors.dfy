/** Values the workspace screens derive from the state: counts, the active navigation item, labels. */
module Selectors {
  import opened Wrappers
  import opened Strings
  import opened Workspace
  import Microcopy

  /** How many variants of a list have the given status (`filter(...).length`). */
  function CountStatus(variants: seq<ReviewVariant>, status: VariantStatus): (n: nat)
    ensures n <= |variants|
    decreases |variants|
  {
    if variants == [] then 0
    else CountStatus(variants[..|variants| - 1], status) + (if variants[|variants| - 1].status == status then 1 else 0)
  }

  /** The count is zero exactly when no variant has the status, and the whole length exactly when every one has it. */
  lemma {:induction false} CountStatusExtremes(variants: seq<ReviewVariant>, status: VariantStatus)
    ensures CountStatus(variants, status) == 0 <==> forall k :: 0 <= k < |variants| ==> variants[k].status != status
    ensures CountStatus(variants, status) == |variants| <==> forall k :: 0 <= k < |variants| ==> variants[k].status == status
    decreases |variants|
  {
    if variants != [] {
      var init := variants[..|variants| - 1];
      CountStatusExtremes(init, status);
      assert forall k :: 0 <= k < |init| ==> init[k] == variants[k];
    }
  }

  function SelectedVariantCount(state: WorkspaceState): (n: nat)
    ensures n == |state.selectedVariantIds|
  {
    |state.selectedVariantIds|
  }

  /** `approvedVariantCount`: how many review variants are approved; none exactly when no variant is. */
  function ApprovedVariantCount(state: WorkspaceState): (n: nat)
    ensures n <= |state.reviewVariants|
    ensures n == 0 <==> forall k :: 0 <= k < |state.reviewVariants| ==> state.reviewVariants[k].status != Approved
  {
    CountStatusExtremes(state.reviewVariants, Approved);
    CountStatus(state.reviewVariants, Approved)
  }

  /** `pendingVariantCount`: how many review variants are pending; none exactly when no variant is. */
  function PendingVariantCount(state: WorkspaceState): (n: nat)
    ensures n <= |state.reviewVariants|
    ensures n == 0 <==> forall k :: 0 <= k < |state.reviewVariants| ==> state.reviewVariants[k].status != Pending
  {
    CountStatusExtremes(state.reviewVariants, Pending);
    CountStatus(state.reviewVariants, Pending)
  }

  /** `rejectedVariantCount`: how many review variants are rejected; none exactly when no variant is. */
  function RejectedVariantCount(state: WorkspaceState): (n: nat)
    ensures n <= |state.reviewVariants|
    ensures n == 0 <==> forall k :: 0 <= k < |state.reviewVariants| ==> state.reviewVariants[k].status != Rejected
  {
    CountStatusExtremes(state.reviewVariants, Rejected);
    CountStatus(state.reviewVariants, Rejected)
  }

  /** `variantCountByStatus`: the dedicated counter of that status. */
  function VariantCountByStatus(state: WorkspaceState, status: VariantStatus): (n: nat)
    ensures status == Approved ==> n == ApprovedVariantCount(state)
    ensures status == Pending ==> n == PendingVariantCount(state)
    ensures status == Rejected ==> n == RejectedVariantCount(state)
  {
    CountStatus(state.reviewVariants, status)
  }

  /** The three counts split the list: every variant has exactly one status. */
  lemma {:induction false} StatusCountsPartition(variants: seq<ReviewVariant>)
    ensures CountStatus(variants, Approved) + CountStatus(variants, Pending) + CountStatus(variants, Rejected) == |variants|
    decreases |variants|
  {
    if variants != [] {
      StatusCountsPartition(variants[..|variants| - 1]);
    }
  }

  /** Approved, pending and rejected together are all the review variants. */
  lemma CountsCoverReview(state: WorkspaceState)
    ensures ApprovedVariantCount(state) + PendingVariantCount(state) + RejectedVariantCount(state) == |state.reviewVariants|
  {
    StatusCountsPartition(state.reviewVariants);
  }

  /** A batch update to one status leaves the counts of the others unable to grow. */
  lemma {:induction false} BatchUpdateCounts(variants: seq<ReviewVariant>, chosen: set<string>, status: VariantStatus)
    ensures CountStatus(WithStatus(variants, chosen, status), status) >= CountStatus(variants, status)
    decreases |variants|
  {
    if variants != [] {
      var init := variants[..|variants| - 1];
      BatchUpdateCounts(init, chosen, status);
      assert WithStatus(variants, chosen, status)[..|variants| - 1] == WithStatus(init, chosen, status);
    }
  }

  /** A navigation item: its id, its label, the view it opens and the one-based wizard step it may carry. */
  datatype TopNavItem = TopNavItem(id: string, title: string, view: AppView, step: Option<int>)

  const TopNavItems: seq<TopNavItem> := [
    TopNavItem("clients", "Clients", Dashboard, None),
    TopNavItem("campaigns", "Campaigns", Campaign, None),
    TopNavItem("generate", "Generate", Generate, None),
    TopNavItem("review", "Review", Review, None),
    TopNavItem("assets", "Assets", Campaign, Some(6))]

  /** `navIsActive`: the assets item is active on the last wizard step of the campaign view, any other on its own view. */
  function NavIsActive(state: WorkspaceState, item: TopNavItem): (active: bool)
    ensures item.id == "assets" ==> (active <==> state.view == Campaign && state.wizardStep == LastStep)
    ensures item.id != "assets" ==> (active <==> state.view == item.view)
  {
    if item.id == "assets" then state.view == Campaign && state.wizardStep == LastStep
    else state.view == item.view
  }

  /** Following the assets item activates it: it navigates to step 6, which is wizard step 5. */
  lemma AssetsItemActivates(state: WorkspaceState, ambient: Ambient)
    ensures var assets := TopNavItems[4];
      NavIsActive(Reduce(state, NavigateView(assets.view, assets.step), ambient), assets)
  {
  }

  /** A workspace opened on the campaign view at any step from 6 on shows the assets item as active. */
  lemma InitialAssetsActive(options: InitOptions, loadingDraw: Microcopy.Unit)
    requires options.initialView == Campaign && options.initialStep >= 6
    ensures NavIsActive(InitialState(options, loadingDraw), TopNavItems[4])
    ensures !NavIsActive(InitialState(options, loadingDraw), TopNavItems[0])
  {
  }

  /** A platform label's place in the fixed order Meta Ads, Instagram, Google Ads, LinkedIn. */
  function PlatformRank(name: string): nat {
    if name == "Meta Ads" then 0 else if name == "Instagram" then 1 else if name == "Google Ads" then 2 else 3
  }

  /** The labels of the enabled export platforms. */
  function PlatformLabels(settings: ExportSettings): (labels: seq<string>)
    ensures |labels| <= 4
    ensures labels == [] <==> !settings.meta && !settings.instagram && !settings.google && !settings.linkedIn
  {
    (if settings.meta then ["Meta Ads"] else [])
    + (if settings.instagram then ["Instagram"] else [])
    + (if settings.google then ["Google Ads"] else [])
    + (if settings.linkedIn then ["LinkedIn"] else [])
  }

  /** The labels name exactly the enabled platforms. */
  lemma PlatformLabelsExact(settings: ExportSettings)
    ensures var labels := PlatformLabels(settings);
      && (settings.meta <==> "Meta Ads" in labels)
      && (settings.instagram <==> "Instagram" in labels)
      && (settings.google <==> "Google Ads" in labels)
      && (settings.linkedIn <==> "LinkedIn" in labels)
  {
    AllPlatformLabelsDiffer();
  }

  /** The labels come in the fixed order Meta Ads, Instagram, Google Ads, LinkedIn, so none twice. */
  lemma PlatformLabelsOrdered(settings: ExportSettings)
    ensures var labels := PlatformLabels(settings);
      forall i, j :: 0 <= i < j < |labels| ==> PlatformRank(labels[i]) < PlatformRank(labels[j])
  {
    var labels := PlatformLabels(settings);
    var ranks := seq(|labels|, k requires 0 <= k < |labels| => PlatformRank(labels[k]));
    AllPlatformLabelsDiffer();
    var m: seq<nat> := if settings.meta then [0] else [];
    var i: seq<nat> := if settings.instagram then [1] else [];
    var g: seq<nat> := if settings.google then [2] else [];
    var l: seq<nat> := if settings.linkedIn then [3] else [];
    assert ranks == m + i + g + l;
  }

  /** The four platform names are different texts. */
  lemma AllPlatformLabelsDiffer()
    ensures "Meta Ads" != "Instagram" && "Meta Ads" != "Google Ads" && "Meta Ads" != "LinkedIn"
    ensures "Instagram" != "Google Ads" && "Instagram" != "LinkedIn" && "Google Ads" != "LinkedIn"
  {
    assert "Meta Ads"[0] == 'M' && "Instagram"[0] == 'I' && "Google Ads"[0] == 'G' && "LinkedIn"[0] == 'L';
  }

  /** `selectedPlatformsLabel`. */
  function SelectedPlatformsLabel(state: WorkspaceState): (text: string)
    ensures PlatformLabels(state.exportSettings) == [] ==> text == "No platform selected"
    ensures PlatformLabels(state.exportSettings) != [] ==> text == Join(PlatformLabels(state.exportSettings), ", ")
  {
    var selected := PlatformLabels(state.exportSettings);
    if selected == [] then "No platform selected" else Join(selected, ", ")
  }

  /** The label names every enabled platform. */
  lemma LabelNamesEnabled(state: WorkspaceState, k: nat)
    requires k < |PlatformLabels(state.exportSettings)|
    ensures Contains(SelectedPlatformsLabel(state), PlatformLabels(state.exportSettings)[k])
  {
    JoinContainsPart(PlatformLabels(state.exportSettings), ", ", k);
  }

  /**
   * The label reads back to exactly the enabled platforms: cut at its
   * commas, it gives the first label, then each later one after its space.
   */
  lemma LabelReadsBack(state: WorkspaceState)
    requires PlatformLabels(state.exportSettings) != []
    ensures var labels := PlatformLabels(state.exportSettings);
      Split(SelectedPlatformsLabel(state), ',')
      == [labels[0]] + seq(|labels| - 1, k requires 0 <= k < |labels| - 1 => " " + labels[k + 1])
  {
    var labels := PlatformLabels(state.exportSettings);
    PlatformLabelsHaveNoComma(state.exportSettings);
    assert [','] + " " == ", ";
    SplitJoinGeneral("", labels, ',', " ");
    assert "" + Join(labels, ", ") == Join(labels, ", ");
    assert "" + labels[0] == labels[0];
  }

  /** No platform label holds a comma. */
  lemma PlatformLabelsHaveNoComma(settings: ExportSettings)
    ensures var labels := PlatformLabels(settings);
      forall k :: 0 <= k < |labels| ==> ',' !in labels[k]
  {
    var labels := PlatformLabels(settings);
    assert forall k :: 0 <= k < |labels| ==> labels[k] in {"Meta Ads", "Instagram", "Google Ads", "LinkedIn"};
  }

  /** `No platform selected` is shown exactly when no platform is enabled. */
  lemma NoPlatformLabel(state: WorkspaceState)
    ensures SelectedPlatformsLabel(state) == "No platform selected" <==>
      !state.exportSettings.meta && !state.exportSettings.instagram
      && !state.exportSettings.google && !state.exportSettings.linkedIn
  {
    var selected := PlatformLabels(state.exportSettings);
    if selected != [] {
      JoinContainsPart(selected, ", ", 0);
      if SelectedPlatformsLabel(state) == "No platform selected" {
        assert Contains("No platform selected", selected[0]);
        assert selected[0] in {"Meta Ads", "Instagram", "Google Ads", "LinkedIn"};
        NoPlatformLabelHasNoName();
      }
    }
  }

  /** None of the platform names occurs in `No platform selected`. */
  lemma NoPlatformLabelHasNoName()
    ensures !Contains("No platform selected", "Meta Ads")
    ensures !Contains("No platform selected", "Instagram")
    ensures !Contains("No platform selected", "Google Ads")
    ensures !Contains("No platform selected", "LinkedIn")
  {
    ContainsStartChar("No platform selected", "Meta Ads");
    ContainsStartChar("No platform selected", "Instagram");
    ContainsStartChar("No platform selected", "Google Ads");
    ContainsStartChar("No platform selected", "LinkedIn");
  }

  /** The progress value shown: clamped into 0..100 (the `toFixed(0)` text is left to the runtime). */
  function ProgressShown(state: WorkspaceState): (p: int)
    ensures 0 <= p <= 100
    ensures 0 <= state.generation.progress <= 100 ==> p == state.generation.progress
  {
    MaxInt(0, MinInt(state.generation.progress, 100))
  }

  /** `progressPercent`: the clamped progress in decimal digits, followed by `%`. */
  function ProgressPercent(state: WorkspaceState): (text: string)
    ensures |text| >= 2 && text[|text| - 1] == '%'
    ensures AllDigits(text[..|text| - 1]) && DecimalValue(text[..|text| - 1]) == ProgressShown(state)
  {
    var digits := NatToString(ProgressShown(state));
    DecimalRoundTrip(ProgressShown(state));
    assert (digits + "%")[..|digits|] == digits;
    digits + "%"
  }
}
