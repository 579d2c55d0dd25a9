/**
 * The quota record that the IP-based tracker hands to the pages. Only the fields
 * the pages read are modelled; how the tracker computes them is not part of this
 * model. Optional numeric fields are `None` when the record lacks them.
 */
module Quota {
  import opened Wrappers

  datatype HistoryEntry = HistoryEntry(testId: string, completed: bool)

  datatype QuotaRecord = QuotaRecord(
    hasQuota: bool,
    remaining: Option<int>,
    total: Option<int>,
    completed: Option<int>,
    testHistory: Option<seq<HistoryEntry>>)

  /** JavaScript's `x || d` for an optional number: a missing value and 0 are both falsy. */
  function OrDefault(x: Option<int>, d: int): (r: int)
    ensures x.Some? && x.value != 0 ==> r == x.value
    ensures x.None? || x.value == 0 ==> r == d
  {
    if x.Some? && x.value != 0 then x.value else d
  }

  /** `quota && quota.hasQuota` (also `quota?.hasQuota` as a truth value). */
  predicate HasQuota(quota: Option<QuotaRecord>) {
    quota.Some? && quota.value.hasQuota
  }
}
