/**
 * The free-test list page: which tests count as completed, whether a test card's
 * button is enabled and what it says, what starting a test does, and the quota
 * banner and counter. The quota is `None` while it has not been loaded or failed to load.
 */
module FreeTestList {
  import opened Wrappers
  import opened Quota
  import TestData

  /** A card of the page's `tests` list (translated texts left out). */
  datatype TestCard = TestCard(id: string, duration: nat, totalQuestions: nat, sectionQuestions: seq<nat>)

  const Tests: seq<TestCard> := [
    TestCard("test-1", 60, 40, [20, 20]),
    TestCard("test-2", 90, 42, [20, 20, 2])
  ]

  function Sum(xs: seq<nat>): nat {
    if xs == [] then 0 else xs[0] + Sum(xs[1..])
  }

  /** Each card advertises the sections, question count and duration of the test the runner shows for it. */
  lemma CardsMatchRunner()
    ensures forall i :: 0 <= i < |Tests| ==>
      Tests[i].totalQuestions == Sum(Tests[i].sectionQuestions) &&
      Tests[i].sectionQuestions == TestData.SectionSizes(TestData.Lookup(Tests[i].id)) &&
      Tests[i].duration == TestData.Lookup(Tests[i].id).duration
  {
    assert TestData.SectionSizes(TestData.Test1) == [20, 20];
    assert TestData.SectionSizes(TestData.Test2) == [20, 20, 2];
  }

  // ---- isTestCompleted ----

  /** `history.some(t => t.testId === testId && t.completed)`. */
  function SomeCompleted(history: seq<HistoryEntry>, testId: string): (found: bool)
    ensures found <==> exists i :: 0 <= i < |history| && history[i].testId == testId && history[i].completed
  {
    if history == [] then false
    else (history[0].testId == testId && history[0].completed) || SomeCompleted(history[1..], testId)
  }

  function IsTestCompleted(quota: Option<QuotaRecord>, testId: string): (completed: bool)
    ensures quota.None? || quota.value.testHistory.None? ==> !completed
    ensures quota.Some? && quota.value.testHistory.Some? ==>
      (completed <==> HistoryEntry(testId, true) in quota.value.testHistory.value)
  {
    if quota.None? || quota.value.testHistory.None? then false
    else
      var history := quota.value.testHistory.value;
      assert SomeCompleted(history, testId) ==> HistoryEntry(testId, true) in history;
      SomeCompleted(history, testId)
  }

  // ---- The card button ----

  /** `quota?.hasQuota || completed`. */
  function CanTake(quota: Option<QuotaRecord>, testId: string): (can: bool)
    ensures can <==> (quota.Some? && quota.value.hasQuota) || IsTestCompleted(quota, testId)
    ensures quota.None? ==> !can
  {
    HasQuota(quota) || IsTestCompleted(quota, testId)
  }

  /** `disabled={!canTake}`. */
  function ButtonDisabled(quota: Option<QuotaRecord>, testId: string): (disabled: bool)
    ensures disabled <==> !HasQuota(quota) && !IsTestCompleted(quota, testId)
  {
    !CanTake(quota, testId)
  }

  datatype ButtonLabel = Retake | StartTest | Locked

  function Label(quota: Option<QuotaRecord>, testId: string): (caption: ButtonLabel)
    ensures caption == Retake <==> IsTestCompleted(quota, testId)
    ensures caption == StartTest <==> HasQuota(quota) && !IsTestCompleted(quota, testId)
    ensures caption == Locked <==> !HasQuota(quota) && !IsTestCompleted(quota, testId)
  {
    if IsTestCompleted(quota, testId) then Retake
    else if CanTake(quota, testId) then StartTest
    else Locked
  }

  /** The button is disabled exactly when it reads "locked". */
  lemma DisabledIffLocked(quota: Option<QuotaRecord>, testId: string)
    ensures ButtonDisabled(quota, testId) <==> Label(quota, testId) == Locked
  {
  }

  // ---- handleStartTest ----

  datatype StartOutcome = Navigate(path: string) | Refuse

  function RunnerPath(testId: string): string {
    "/test-runner/" + testId
  }

  /** Different tests are started on different routes. */
  lemma RunnerPathInjective(a: string, b: string)
    ensures RunnerPath(a) == RunnerPath(b) ==> a == b
  {
    var prefix := "/test-runner/";
    if RunnerPath(a) == RunnerPath(b) {
      assert a == RunnerPath(a)[|prefix|..];
      assert b == RunnerPath(b)[|prefix|..];
    }
  }

  function HandleStartTest(quota: Option<QuotaRecord>, testId: string): (outcome: StartOutcome)
    ensures outcome == Refuse <==> !HasQuota(quota)
    ensures outcome.Navigate? ==> outcome.path == RunnerPath(testId)
  {
    if quota.None? || !quota.value.hasQuota then Refuse else Navigate(RunnerPath(testId))
  }

  /** A "start" button always leads into the runner. */
  lemma StartButtonNavigates(quota: Option<QuotaRecord>, testId: string)
    requires Label(quota, testId) == StartTest
    ensures HandleStartTest(quota, testId) == Navigate(RunnerPath(testId))
  {
  }

  /**
   * A completed test without remaining quota shows an enabled "retake" button,
   * and clicking it is refused.
   */
  lemma RetakeEnabledButRefused(quota: Option<QuotaRecord>, testId: string)
    requires quota.Some? && !quota.value.hasQuota && IsTestCompleted(quota, testId)
    ensures !ButtonDisabled(quota, testId) && Label(quota, testId) == Retake
    ensures HandleStartTest(quota, testId) == Refuse
  {
  }

  lemma RetakeRefusedExample()
    ensures var q := Some(QuotaRecord(false, Some(0), Some(2), Some(2),
                                      Some([HistoryEntry("test-1", true)])));
      !ButtonDisabled(q, "test-1") && HandleStartTest(q, "test-1") == Refuse
  {
    var q := Some(QuotaRecord(false, Some(0), Some(2), Some(2), Some([HistoryEntry("test-1", true)])));
    assert q.value.testHistory.value[0] == HistoryEntry("test-1", true);
  }

  // ---- Banner and counter ----

  /** `quota && !quota.hasQuota`. */
  function ShowNoQuotaBanner(quota: Option<QuotaRecord>): (shown: bool)
    ensures shown <==> quota.Some? && !quota.value.hasQuota
  {
    quota.Some? && !quota.value.hasQuota
  }

  /** With the banner up, every test not yet completed is locked. */
  lemma BannerLocksNewTests(quota: Option<QuotaRecord>, testId: string)
    requires ShowNoQuotaBanner(quota) && !IsTestCompleted(quota, testId)
    ensures Label(quota, testId) == Locked && ButtonDisabled(quota, testId)
  {
  }

  /** Without a quota record every test is locked, yet no banner explains why. */
  lemma MissingQuotaLocksSilently(testId: string)
    ensures Label(None, testId) == Locked && !ShowNoQuotaBanner(None)
  {
  }

  /** `quota?.remaining || 0` and `quota?.total || 2`. */
  function QuotaDisplay(quota: Option<QuotaRecord>): (shown: (int, int))
    ensures quota.None? ==> shown == (0, 2)
    ensures quota.Some? ==> shown.0 == OrDefault(quota.value.remaining, 0)
    ensures quota.Some? ==> shown.1 == OrDefault(quota.value.total, 2)
  {
    if quota.None? then (0, 2)
    else (OrDefault(quota.value.remaining, 0), OrDefault(quota.value.total, 2))
  }

  /** A total of 0 is falsy, so it is displayed as 2. */
  lemma ZeroTotalDisplaysAsTwo(quota: QuotaRecord)
    requires quota.total == Some(0)
    ensures QuotaDisplay(Some(quota)).1 == 2
  {
  }
}
