/**
 * The operations alert check: the metrics summary of a window is compared
 * against thresholds, the alerts it raises are listed in a fixed order, and
 * the process fails when a critical one was raised.
 */
module CheckAlerts {
  import opened Wrappers
  import opened Strings

  datatype Severity = Warning | Critical

  /** The alert keys; `KeyName` is how each is written in the report. */
  datatype AlertKey =
    | NoRecentJobsKey | SuccessRateLow | FailureRateHigh | QueueWaitHigh
    | RunDurationHigh | CopyFallbackHigh | ImageFallbackHigh

  function KeyName(key: AlertKey): string {
    match key
    case NoRecentJobsKey => "no_recent_jobs"
    case SuccessRateLow => "success_rate_low"
    case FailureRateHigh => "failure_rate_high"
    case QueueWaitHigh => "queue_wait_high"
    case RunDurationHigh => "run_duration_high"
    case CopyFallbackHigh => "copy_fallback_high"
    case ImageFallbackHigh => "image_fallback_high"
  }

  datatype Alert = Alert(key: AlertKey, severity: Severity, message: string)

  /** The job part of the metrics summary; a missing average or percentile is `None`. */
  datatype JobMetrics = JobMetrics(
    total: int, successRate: real, failureRate: real, avgQueueWaitMs: Option<real>, p95RunDurationMs: Option<real>)

  /** The variant part of the metrics summary. */
  datatype VariantMetrics = VariantMetrics(total: int, copyFallbackRate: real, imageFallbackRate: real)

  datatype Summary = Summary(jobs: JobMetrics, variants: VariantMetrics)

  datatype Thresholds = Thresholds(
    minSuccessRate: real, maxFailureRate: real, maxCopyFallbackRate: real,
    maxImageFallbackRate: real, maxAvgQueueWaitMs: real, maxP95RunDurationMs: real)

  /** The thresholds when no environment variable overrides them. */
  const DefaultThresholds := Thresholds(0.85, 0.15, 0.6, 0.6, 45000.0, 180000.0)

  /** The checks, in the order they run. */
  const KeyOrder: seq<AlertKey> := [
    SuccessRateLow, FailureRateHigh, QueueWaitHigh, RunDurationHigh, CopyFallbackHigh, ImageFallbackHigh]

  /** The alert a failed check raises; `show` renders a number as JavaScript does. */
  function AlertFor(key: AlertKey, summary: Summary, t: Thresholds, show: real -> string): (a: Alert)
    ensures a.key == key
    ensures a.severity == Critical <==> key == SuccessRateLow || key == FailureRateHigh
  {
    var jobs := summary.jobs;
    var variants := summary.variants;
    match key
    case SuccessRateLow =>
      Alert(key, Critical, "Success rate " + show(jobs.successRate) + " below " + show(t.minSuccessRate) + ".")
    case FailureRateHigh =>
      Alert(key, Critical, "Failure rate " + show(jobs.failureRate) + " above " + show(t.maxFailureRate) + ".")
    case QueueWaitHigh =>
      Alert(key, Warning, "Avg queue wait " + show(jobs.avgQueueWaitMs.GetOr(0.0)) + "ms above "
                          + show(t.maxAvgQueueWaitMs) + "ms.")
    case RunDurationHigh =>
      Alert(key, Warning, "P95 run duration " + show(jobs.p95RunDurationMs.GetOr(0.0)) + "ms above "
                          + show(t.maxP95RunDurationMs) + "ms.")
    case CopyFallbackHigh =>
      Alert(key, Warning, "Copy fallback rate " + show(variants.copyFallbackRate) + " above "
                          + show(t.maxCopyFallbackRate) + ".")
    case ImageFallbackHigh =>
      Alert(key, Warning, "Image fallback rate " + show(variants.imageFallbackRate) + " above "
                          + show(t.maxImageFallbackRate) + ".")
    case NoRecentJobsKey => Alert(key, Warning, "No jobs in selected metrics window.")
  }

  /** Whether the check of `key` fails for a window with jobs in it. */
  predicate Fires(key: AlertKey, summary: Summary, t: Thresholds) {
    var jobs := summary.jobs;
    var variants := summary.variants;
    match key
    case SuccessRateLow => jobs.successRate < t.minSuccessRate
    case FailureRateHigh => jobs.failureRate > t.maxFailureRate
    case QueueWaitHigh => jobs.avgQueueWaitMs.Some? && jobs.avgQueueWaitMs.value > t.maxAvgQueueWaitMs
    case RunDurationHigh => jobs.p95RunDurationMs.Some? && jobs.p95RunDurationMs.value > t.maxP95RunDurationMs
    case CopyFallbackHigh => variants.total > 0 && variants.copyFallbackRate > t.maxCopyFallbackRate
    case ImageFallbackHigh => variants.total > 0 && variants.imageFallbackRate > t.maxImageFallbackRate
    case NoRecentJobsKey => false
  }

  const NoRecentJobs := Alert(NoRecentJobsKey, Warning, "No jobs in selected metrics window.")

  /** What one check contributes: its alert when it fails, nothing otherwise. */
  function Check(key: AlertKey, summary: Summary, t: Thresholds, show: real -> string): (r: seq<Alert>)
    ensures |r| <= 1
    ensures r != [] <==> Fires(key, summary, t)
    ensures forall a :: a in r ==> a == AlertFor(key, summary, t, show)
  {
    if Fires(key, summary, t) then [AlertFor(key, summary, t, show)] else []
  }

  /** `evaluateAlerts`: one warning for an empty window, otherwise the alert of every failed check, in the fixed order. */
  function Alerts(summary: Summary, t: Thresholds, show: real -> string): seq<Alert> {
    if summary.jobs.total == 0 then [NoRecentJobs]
    else Check(SuccessRateLow, summary, t, show) + Check(FailureRateHigh, summary, t, show)
         + Check(QueueWaitHigh, summary, t, show) + Check(RunDurationHigh, summary, t, show)
         + Check(CopyFallbackHigh, summary, t, show) + Check(ImageFallbackHigh, summary, t, show)
  }

  /** `evaluateAlerts` as the script runs it: one check after another, appending to a list. */
  method EvaluateAlerts(summary: Summary, t: Thresholds, show: real -> string) returns (alerts: seq<Alert>)
    ensures alerts == Alerts(summary, t, show)
  {
    alerts := [];
    if summary.jobs.total == 0 {
      alerts := alerts + [NoRecentJobs];
      return;
    }
    var i := 0;
    while i < |KeyOrder|
      invariant 0 <= i <= |KeyOrder|
      invariant alerts == Prefix(i, summary, t, show)
    {
      if Fires(KeyOrder[i], summary, t) {
        alerts := alerts + [AlertFor(KeyOrder[i], summary, t, show)];
      }
      i := i + 1;
    }
    PrefixIsAlerts(summary, t, show);
  }

  /** The alerts of the first `n` checks of the order. */
  function Prefix(n: nat, summary: Summary, t: Thresholds, show: real -> string): seq<Alert>
    requires n <= |KeyOrder|
  {
    if n == 0 then [] else Prefix(n - 1, summary, t, show) + Check(KeyOrder[n - 1], summary, t, show)
  }

  /** All six checks in order are the alerts of a window with jobs. */
  lemma PrefixIsAlerts(summary: Summary, t: Thresholds, show: real -> string)
    requires summary.jobs.total != 0
    ensures Prefix(|KeyOrder|, summary, t, show) == Alerts(summary, t, show)
  {
    var c1 := Check(SuccessRateLow, summary, t, show);
    var c2 := Check(FailureRateHigh, summary, t, show);
    var c3 := Check(QueueWaitHigh, summary, t, show);
    var c4 := Check(RunDurationHigh, summary, t, show);
    var c5 := Check(CopyFallbackHigh, summary, t, show);
    var c6 := Check(ImageFallbackHigh, summary, t, show);
    assert Prefix(1, summary, t, show) == c1;
    assert Prefix(2, summary, t, show) == c1 + c2;
    assert Prefix(3, summary, t, show) == c1 + c2 + c3;
    assert Prefix(4, summary, t, show) == c1 + c2 + c3 + c4;
    assert Prefix(5, summary, t, show) == c1 + c2 + c3 + c4 + c5;
  }

  /** Every alert of a window with jobs is the alert of its own check, and that check failed. */
  lemma AlertsAreFailedChecks(summary: Summary, t: Thresholds, show: real -> string)
    requires summary.jobs.total != 0
    ensures forall a :: a in Alerts(summary, t, show) ==> a == AlertFor(a.key, summary, t, show) && Fires(a.key, summary, t)
  {
  }

  /** For a window with jobs, the alert of a check is raised exactly when the check fails. */
  lemma FiresIff(summary: Summary, t: Thresholds, show: real -> string, key: AlertKey)
    requires summary.jobs.total != 0
    ensures AlertFor(key, summary, t, show) in Alerts(summary, t, show) <==> Fires(key, summary, t)
  {
    AlertsAreFailedChecks(summary, t, show);
    if Fires(key, summary, t) {
      assert AlertFor(key, summary, t, show) in Check(key, summary, t, show);
    }
  }

  /** A window without jobs raises exactly the one warning. */
  lemma NoJobsOneWarning(summary: Summary, t: Thresholds, show: real -> string)
    requires summary.jobs.total == 0
    ensures Alerts(summary, t, show) == [NoRecentJobs] && NoRecentJobs.severity == Warning
  {
  }

  /** Where a check stands in the order. */
  function Rank(key: AlertKey): (r: nat)
    ensures key != NoRecentJobsKey ==> r < |KeyOrder| && KeyOrder[r] == key
  {
    match key
    case SuccessRateLow => 0
    case FailureRateHigh => 1
    case QueueWaitHigh => 2
    case RunDurationHigh => 3
    case CopyFallbackHigh => 4
    case ImageFallbackHigh => 5
    case NoRecentJobsKey => 6
  }

  /** The ranks of a list of alerts strictly increase, and all lie below `bound`. */
  predicate RankedBelow(alerts: seq<Alert>, bound: nat) {
    (forall i :: 0 <= i < |alerts| ==> Rank(alerts[i].key) < bound)
    && (forall i, j :: 0 <= i < j < |alerts| ==> Rank(alerts[i].key) < Rank(alerts[j].key))
  }

  /** Appending at most one alert of rank `n - 1` to alerts ranked below `n - 1` keeps them ranked, now below `n`. */
  lemma RankedAppend(before: seq<Alert>, step: seq<Alert>, n: nat)
    requires n > 0 && RankedBelow(before, n - 1) && |step| <= 1
    requires forall a :: a in step ==> Rank(a.key) == n - 1
    ensures RankedBelow(before + step, n)
  {
    if step != [] {
      assert step[0] in step;
      assert forall i :: 0 <= i < |before| ==> (before + step)[i] == before[i];
      assert (before + step)[|before|] == step[0];
    }
  }

  /** The first `n` checks give alerts ranked in order below `n`. */
  lemma {:induction false} PrefixRanked(n: nat, summary: Summary, t: Thresholds, show: real -> string)
    requires n <= |KeyOrder|
    ensures RankedBelow(Prefix(n, summary, t, show), n)
  {
    if n > 0 {
      PrefixRanked(n - 1, summary, t, show);
      var key := KeyOrder[n - 1];
      assert Rank(key) == n - 1;
      var step := Check(key, summary, t, show);
      assert forall a :: a in step ==> a.key == key;
      RankedAppend(Prefix(n - 1, summary, t, show), step, n);
    }
  }

  /** The raised alerts follow the fixed order, so no key appears twice. */
  lemma AlertsOrdered(summary: Summary, t: Thresholds, show: real -> string)
    ensures var alerts := Alerts(summary, t, show);
      forall i, j :: 0 <= i < j < |alerts| ==> Rank(alerts[i].key) < Rank(alerts[j].key) && alerts[i].key != alerts[j].key
  {
    if summary.jobs.total != 0 {
      PrefixRanked(|KeyOrder|, summary, t, show);
      PrefixIsAlerts(summary, t, show);
    }
  }

  predicate HasCritical(alerts: seq<Alert>) {
    exists i :: 0 <= i < |alerts| && alerts[i].severity == Critical
  }

  /** A critical alert is raised exactly when the success rate is too low or the failure rate too high. */
  lemma CriticalIff(summary: Summary, t: Thresholds, show: real -> string)
    ensures HasCritical(Alerts(summary, t, show)) <==>
      summary.jobs.total != 0
      && (summary.jobs.successRate < t.minSuccessRate || summary.jobs.failureRate > t.maxFailureRate)
  {
    var alerts := Alerts(summary, t, show);
    if summary.jobs.total != 0 {
      FiresIff(summary, t, show, SuccessRateLow);
      FiresIff(summary, t, show, FailureRateHigh);
      AlertsAreFailedChecks(summary, t, show);
      if HasCritical(alerts) {
        var i :| 0 <= i < |alerts| && alerts[i].severity == Critical;
        assert alerts[i] in alerts;
      }
      if summary.jobs.successRate < t.minSuccessRate || summary.jobs.failureRate > t.maxFailureRate {
        var a := if summary.jobs.successRate < t.minSuccessRate then AlertFor(SuccessRateLow, summary, t, show)
                 else AlertFor(FailureRateHigh, summary, t, show);
        assert a in alerts;
        var i :| 0 <= i < |alerts| && alerts[i] == a;
        assert alerts[i].severity == Critical;
      }
    }
  }

  /** The exit status after the alerts were printed: 1 when failing on alerts is on and one is critical. */
  function ExitStatus(failOnAlert: bool, alerts: seq<Alert>): (status: int)
    ensures status == 1 <==> failOnAlert && HasCritical(alerts)
    ensures status == 0 || status == 1
  {
    if failOnAlert && HasCritical(alerts) then 1 else 0
  }

  /** `FAIL_ON_ALERT`: on unless the variable is exactly `false`. */
  function FailOnAlert(setting: Option<string>): (on: bool)
    ensures !on <==> setting == Some("false")
  {
    setting != Some("false")
  }

  /** The checks before any request: a passphrase is required and the window must be a positive finite number of hours. */
  function StartError(passphrase: Option<string>, windowHours: JsNumber): (error: Option<string>)
    ensures passphrase == None || passphrase == Some("") ==> error.Some?
    ensures error.None? <==> passphrase.Some? && passphrase.value != "" && windowHours.Finite? && windowHours.value > 0.0
  {
    if passphrase.None? || passphrase.value == "" then Some("Set PASSPHRASE or SESSION_PASSPHRASE before running this script.")
    else if !windowHours.Finite? || windowHours.value <= 0.0 then Some("WINDOW_HOURS must be a positive number.")
    else None
  }

  /** The window the summary is asked for: the whole hours of a valid setting, so at least 0. */
  function RequestedWindowHours(windowHours: JsNumber): (hours: int)
    requires windowHours.Finite? && windowHours.value > 0.0
    ensures 0 <= hours && hours as real <= windowHours.value < hours as real + 1.0
  {
    windowHours.value.Floor
  }

  /** With the default thresholds a window with a success rate of 0.8 is critical and fails the run. */
  lemma LowSuccessFailsRun(summary: Summary, show: real -> string)
    requires summary.jobs.total > 0 && summary.jobs.successRate == 0.8
    ensures ExitStatus(FailOnAlert(None), Alerts(summary, DefaultThresholds, show)) == 1
  {
    CriticalIff(summary, DefaultThresholds, show);
  }
}
