/**
 * The question cursor of the test runner as a pure specification over the list of
 * section sizes (how many questions each section holds): the step forward of
 * `handleNext`, the step back of `handlePrevious`, and a reference reading of a
 * cursor as its position in the flattened list of all questions.
 */
module Navigation {

  /** `(currentSection, currentQuestion)`. */
  datatype Cursor = Cursor(section: nat, question: nat)

  /** Every test has at least one section and every section at least one question. */
  predicate WellFormed(sizes: seq<nat>) {
    |sizes| > 0 && forall i :: 0 <= i < |sizes| ==> sizes[i] > 0
  }

  /** The cursor names an existing question. */
  predicate InBounds(sizes: seq<nat>, c: Cursor) {
    c.section < |sizes| && c.question < sizes[c.section]
  }

  /** The first question of the first section, where the runner starts. */
  const Start := Cursor(0, 0)

  /** Where the "previous" button is disabled. */
  predicate IsFirst(c: Cursor) {
    c.section == 0 && c.question == 0
  }

  /** Where the submit button replaces the "next" button. */
  predicate IsLast(sizes: seq<nat>, c: Cursor)
    requires c.section < |sizes|
  {
    c.section + 1 == |sizes| && c.question + 1 == sizes[c.section]
  }

  /** `handleNext`: the next question of the section, else the first of the next section. */
  function Next(sizes: seq<nat>, c: Cursor): (n: Cursor)
    requires WellFormed(sizes) && InBounds(sizes, c)
    ensures InBounds(sizes, n)
    ensures n.section == c.section || n == Cursor(c.section + 1, 0)
  {
    if c.question < sizes[c.section] - 1 then Cursor(c.section, c.question + 1)
    else if c.section < |sizes| - 1 then Cursor(c.section + 1, 0)
    else c
  }

  /** `handlePrevious`: the previous question of the section, else the last of the previous section. */
  function Previous(sizes: seq<nat>, c: Cursor): (p: Cursor)
    requires WellFormed(sizes) && InBounds(sizes, c)
    ensures InBounds(sizes, p)
    ensures p.section == c.section || (p.section + 1 == c.section && p.question + 1 == sizes[p.section])
  {
    if c.question > 0 then Cursor(c.section, c.question - 1)
    else if c.section > 0 then Cursor(c.section - 1, sizes[c.section - 1] - 1)
    else c
  }

  // ---- Reference: the position of a cursor among all questions of the test ----

  /** Number of questions in the first `k` sections. */
  function Offset(sizes: seq<nat>, k: nat): nat
    requires k <= |sizes|
    decreases k
  {
    if k == 0 then 0 else Offset(sizes, k - 1) + sizes[k - 1]
  }

  /** Number of questions in the test. */
  function Total(sizes: seq<nat>): nat {
    Offset(sizes, |sizes|)
  }

  /** Zero-based index of the cursor's question in the flattened question list. */
  function Flat(sizes: seq<nat>, c: Cursor): nat
    requires c.section < |sizes|
  {
    Offset(sizes, c.section) + c.question
  }

  /** Sections before `j` hold at least the questions of sections before `i`, plus section `i` itself when `i < j`. */
  lemma {:induction false} OffsetMonotone(sizes: seq<nat>, i: nat, j: nat)
    requires i <= j <= |sizes|
    ensures Offset(sizes, i) <= Offset(sizes, j)
    ensures i < j ==> Offset(sizes, i) + sizes[i] <= Offset(sizes, j)
    decreases j
  {
    if i < j {
      OffsetMonotone(sizes, i, j - 1);
    }
  }

  /** An in-bounds cursor has a flat index below the question count. */
  lemma FlatBelowTotal(sizes: seq<nat>, c: Cursor)
    requires InBounds(sizes, c)
    ensures Flat(sizes, c) < Total(sizes)
  {
    OffsetMonotone(sizes, c.section, |sizes|);
  }

  /** Distinct in-bounds cursors have distinct flat indices. */
  lemma FlatInjective(sizes: seq<nat>, a: Cursor, b: Cursor)
    requires InBounds(sizes, a) && InBounds(sizes, b)
    ensures Flat(sizes, a) == Flat(sizes, b) ==> a == b
  {
    if a.section < b.section {
      OffsetMonotone(sizes, a.section, b.section);
    } else if b.section < a.section {
      OffsetMonotone(sizes, b.section, a.section);
    }
  }

  /** The last position is exactly the one whose flat index is the final one. */
  lemma IsLastIffFinalIndex(sizes: seq<nat>, c: Cursor)
    requires WellFormed(sizes) && InBounds(sizes, c)
    ensures IsLast(sizes, c) <==> Flat(sizes, c) + 1 == Total(sizes)
  {
    if c.section < |sizes| - 1 {
      OffsetMonotone(sizes, c.section + 1, |sizes|);
    }
  }

  /** The first position is exactly the one with flat index 0. */
  lemma IsFirstIffIndexZero(sizes: seq<nat>, c: Cursor)
    requires WellFormed(sizes) && InBounds(sizes, c)
    ensures IsFirst(c) <==> Flat(sizes, c) == 0
  {
    if c.section > 0 {
      OffsetMonotone(sizes, 0, c.section);
    }
  }

  /**
   * `handleNext` keeps the cursor in bounds and moves it exactly one question
   * forward in the flattened list, except at the last question, where it stays.
   */
  lemma NextSteps(sizes: seq<nat>, c: Cursor)
    requires WellFormed(sizes) && InBounds(sizes, c)
    ensures InBounds(sizes, Next(sizes, c))
    ensures IsLast(sizes, c) ==> Next(sizes, c) == c
    ensures !IsLast(sizes, c) ==> Flat(sizes, Next(sizes, c)) == Flat(sizes, c) + 1
  {
  }

  /**
   * `handlePrevious` keeps the cursor in bounds and moves it exactly one question
   * back in the flattened list, except at the first question, where it stays.
   */
  lemma PreviousSteps(sizes: seq<nat>, c: Cursor)
    requires WellFormed(sizes) && InBounds(sizes, c)
    ensures InBounds(sizes, Previous(sizes, c))
    ensures IsFirst(c) ==> Previous(sizes, c) == c
    ensures !IsFirst(c) ==> Flat(sizes, Previous(sizes, c)) + 1 == Flat(sizes, c)
  {
  }

  /** Stepping back after stepping forward restores the cursor, unless it was at the last question. */
  lemma PreviousAfterNext(sizes: seq<nat>, c: Cursor)
    requires WellFormed(sizes) && InBounds(sizes, c) && !IsLast(sizes, c)
    ensures Previous(sizes, Next(sizes, c)) == c
  {
    NextSteps(sizes, c);
    var n := Next(sizes, c);
    IsFirstIffIndexZero(sizes, n);
    PreviousSteps(sizes, n);
    FlatInjective(sizes, Previous(sizes, n), c);
  }

  /** Stepping forward after stepping back restores the cursor, unless it was at the first question. */
  lemma NextAfterPrevious(sizes: seq<nat>, c: Cursor)
    requires WellFormed(sizes) && InBounds(sizes, c) && !IsFirst(c)
    ensures Next(sizes, Previous(sizes, c)) == c
  {
    PreviousSteps(sizes, c);
    var p := Previous(sizes, c);
    IsLastIffFinalIndex(sizes, p);
    FlatBelowTotal(sizes, c);
    NextSteps(sizes, p);
    FlatInjective(sizes, Next(sizes, p), c);
  }

  /** The "previous" button is disabled exactly where `handlePrevious` would do nothing. */
  lemma PreviousIsNoOpIffFirst(sizes: seq<nat>, c: Cursor)
    requires WellFormed(sizes) && InBounds(sizes, c)
    ensures Previous(sizes, c) == c <==> IsFirst(c)
  {
  }

  /** The submit button replaces "next" exactly where `handleNext` would do nothing. */
  lemma NextIsNoOpIffLast(sizes: seq<nat>, c: Cursor)
    requires WellFormed(sizes) && InBounds(sizes, c)
    ensures Next(sizes, c) == c <==> IsLast(sizes, c)
  {
  }

  /** The cursor after pressing "next" `k` times. */
  function Advance(sizes: seq<nat>, c: Cursor, k: nat): Cursor
    requires WellFormed(sizes) && InBounds(sizes, c)
    decreases k
  {
    if k == 0 then c
    else
      NextSteps(sizes, c);
      Advance(sizes, Next(sizes, c), k - 1)
  }

  /**
   * Pressing "next" `k` times visits the questions in flattened
   * order and stops at the last question: every question is reachable, and the
   * cursor never leaves the test.
   */
  lemma {:induction false} AdvanceSteps(sizes: seq<nat>, c: Cursor, k: nat)
    requires WellFormed(sizes) && InBounds(sizes, c)
    ensures InBounds(sizes, Advance(sizes, c, k))
    ensures Flat(sizes, Advance(sizes, c, k)) ==
            if Flat(sizes, c) + k < Total(sizes) then Flat(sizes, c) + k else Total(sizes) - 1
    decreases k
  {
    FlatBelowTotal(sizes, c);
    if k > 0 {
      NextSteps(sizes, c);
      IsLastIffFinalIndex(sizes, c);
      AdvanceSteps(sizes, Next(sizes, c), k - 1);
    }
  }

  /** Every question is reached from the start by pressing "next" as often as its flat index says. */
  lemma Reachable(sizes: seq<nat>, c: Cursor)
    requires WellFormed(sizes) && InBounds(sizes, c)
    ensures Advance(sizes, Start, Flat(sizes, c)) == c
  {
    FlatBelowTotal(sizes, c);
    AdvanceSteps(sizes, Start, Flat(sizes, c));
    FlatInjective(sizes, Advance(sizes, Start, Flat(sizes, c)), c);
  }
}
