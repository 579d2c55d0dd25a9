/**
 * The test-taking page: the countdown and its m:ss display, the developer-tools
 * key filter, and the runner state (cursor, answers, countdown, submitting flag)
 * as a class whose methods are the page's event handlers.
 */
module TestRunner {
  import opened Wrappers
  import opened NumberText
  import opened Navigation
  import opened TestData

  /** Every test starts with 60 minutes on the clock, whatever its advertised duration. */
  const InitialSeconds: nat := 3600

  // ---- formatTime ----

  /** `${Math.floor(s / 60)}:${(s % 60).toString().padStart(2, '0')}`. */
  function FormatTime(seconds: nat): (r: string)
    ensures |r| >= 4 && r[|r| - 3] == ':'
    ensures AllDigits(r[..|r| - 3]) && AllDigits(r[|r| - 2..])
    ensures (r[0] == '0') == (seconds < 60)
    ensures seconds < 60 ==> |r| == 4
    ensures DigitsValue(r[|r| - 2..]) < 60
    ensures DigitsValue(r[..|r| - 3]) * 60 + DigitsValue(r[|r| - 2..]) == seconds
  {
    var m, sc := seconds / 60, seconds % 60;
    MinutesAndSeconds(seconds);
    var mins, secs := NatToString(m), PadStart(NatToString(sc), 2, '0');
    ValueOfNatToString(m);
    ValueOfNatToString(sc);
    PadStartZeroValue(NatToString(sc), 2);
    JoinParts(mins, secs);
    ShortMinutes(seconds);
    mins + ":" + secs
  }

  lemma MinutesAndSeconds(seconds: nat)
    ensures (seconds / 60) * 60 + seconds % 60 == seconds
    ensures seconds % 60 < 60
    ensures seconds / 60 == 0 <==> seconds < 60
  {
  }

  lemma ShortMinutes(seconds: nat)
    ensures seconds < 60 ==> |NatToString(seconds / 60)| == 1
  {
    if seconds < 60 {
      assert seconds / 60 == 0;
    }
  }

  /** How `mins + ":" + secs` splits back into its parts. */
  lemma JoinParts(mins: string, secs: string)
    requires |mins| >= 1 && |secs| == 2
    ensures var r := mins + ":" + secs;
      |r| == |mins| + 3 && r[|r| - 3] == ':' && r[0] == mins[0] &&
      r[..|r| - 3] == mins && r[|r| - 2..] == secs
  {
  }

  /** Reads an "m:ss" display back into a number of seconds. */
  function ParseTime(r: string): (seconds: Option<nat>)
    ensures seconds.Some? ==> |r| >= 4 && r[|r| - 3] == ':'
  {
    if |r| >= 4 && r[|r| - 3] == ':' && AllDigits(r[..|r| - 3]) && AllDigits(r[|r| - 2..])
    then Some(DigitsValue(r[..|r| - 3]) * 60 + DigitsValue(r[|r| - 2..]))
    else None
  }

  /** Reading the display back gives the countdown value. */
  lemma ParseFormatTime(seconds: nat)
    ensures ParseTime(FormatTime(seconds)) == Some(seconds)
  {
  }

  /** Different countdown values are displayed differently. */
  lemma FormatTimeInjective(a: nat, b: nat)
    ensures FormatTime(a) == FormatTime(b) ==> a == b
  {
    ParseFormatTime(a);
    ParseFormatTime(b);
  }

  /** The initial countdown is displayed as "60:00". */
  lemma FormatInitialTime()
    ensures FormatTime(InitialSeconds) == "60:00"
  {
    assert FormatTime(3600) == NatToString(60) + ":" + PadStart(NatToString(0), 2, '0');
    assert NatToString(60) == "60" && PadStart("0", 2, '0') == "00";
  }

  /** Seconds below ten get a leading zero: 65 is displayed as "1:05". */
  lemma FormatPadsSeconds()
    ensures FormatTime(65) == "1:05"
  {
    assert 65 / 60 == 1 && 65 % 60 == 5;
    assert FormatTime(65) == NatToString(1) + ":" + PadStart(NatToString(5), 2, '0');
    assert NatToString(1) == "1" && NatToString(5) == "5";
    assert PadStart("5", 2, '0') == "05";
  }

  /** The timer badge turns red below five minutes. */
  function TimerUrgent(seconds: nat): (urgent: bool)
    ensures urgent <==> DigitsValue(FormatTime(seconds)[..|FormatTime(seconds)| - 3]) < 5
  {
    seconds < 300
  }

  // ---- The developer-tools key filter of handleKeyDown ----

  /** Whether a key press is swallowed: F12, Ctrl+Shift+I, Ctrl+Shift+J and Ctrl+u (case-sensitive). */
  function IsBlockedKey(key: string, ctrl: bool, shift: bool): (blocked: bool)
    ensures !ctrl ==> (blocked <==> key == "F12")
    ensures ctrl && !shift ==> (blocked <==> key == "F12" || key == "u")
    ensures ctrl && shift ==> (blocked <==> key in {"F12", "I", "J", "u"})
  {
    key == "F12" || (ctrl && shift && (key == "I" || key == "J")) || (ctrl && key == "u")
  }

  /** Holding Shift turns Ctrl+u into Ctrl+U, which is not blocked; lower-case i and j are not blocked either. */
  lemma KeyFilterIsCaseSensitive()
    ensures IsBlockedKey("u", true, false) && !IsBlockedKey("U", true, false)
    ensures !IsBlockedKey("U", true, true) && !IsBlockedKey("i", true, true) && !IsBlockedKey("j", true, true)
    ensures IsBlockedKey("I", true, true) && !IsBlockedKey("I", true, false)
  {
  }

  // ---- The countdown ----

  /** The value the interval's state updater returns. */
  function TickRemaining(t: nat): (r: nat)
    ensures t > 0 ==> r + 1 == t
    ensures t == 0 ==> r == 0
  {
    if t <= 0 then 0 else t - 1
  }

  /** Whether the interval's state updater calls `handleSubmit`. */
  function TickSubmits(t: nat): (submit: bool)
    ensures submit <==> t == 0
  {
    t <= 0
  }

  /** The countdown after `k` ticks. */
  function Ticks(t: nat, k: nat): nat
    decreases k
  {
    if k == 0 then t else Ticks(TickRemaining(t), k - 1)
  }

  /** After `k` ticks the countdown has gone down by `k`, stopping at 0. */
  lemma {:induction false} TicksCountDown(t: nat, k: nat)
    ensures Ticks(t, k) == if k <= t then t - k else 0
    decreases k
  {
    if k > 0 {
      TicksCountDown(TickRemaining(t), k - 1);
    }
  }

  /** The `k`-th tick (counting from 1) asks for submission exactly when `k > t`. */
  lemma TickNumberSubmits(t: nat, k: nat)
    requires k >= 1
    ensures TickSubmits(Ticks(t, k - 1)) <==> k > t
  {
    TicksCountDown(t, k - 1);
  }

  /** Test-2 advertises 90 minutes but its countdown starts at 60. */
  lemma CountdownIgnoresDuration()
    ensures InitialSeconds == Test1.duration * 60
    ensures InitialSeconds < Test2.duration * 60
  {
  }

  // ---- The runner state ----

  /** What `handleSubmit` ends in. */
  datatype SubmitOutcome = Stay | ShowResult(path: string, answers: map<string, string>)

  /** How a navigator button is drawn. */
  datatype NavigatorStyle = Current | Answered | Unanswered

  class Runner {
    const testId: string
    const test: Test
    const sizes: seq<nat>
    var section: nat
    var question: nat
    var answers: map<string, string>
    var timeRemaining: nat
    var isSubmitting: bool

    ghost predicate Valid()
      reads this
    {
      sizes == SectionSizes(test) && WellFormed(sizes) && UniqueIds(test) &&
      InBounds(sizes, Cursor(section, question))
    }

    function Position(): Cursor
      reads this
    {
      Cursor(section, question)
    }

    /** The page mounted at `/test-runner/testId`. */
    constructor (testId: string)
      ensures Valid()
      ensures this.testId == testId && test == Lookup(testId)
      ensures Position() == Start && answers == map[]
      ensures timeRemaining == InitialSeconds && !isSubmitting
    {
      this.testId := testId;
      test := Lookup(testId);
      sizes := SectionSizes(Lookup(testId));
      section, question := 0, 0;
      answers := map[];
      timeRemaining := InitialSeconds;
      isSubmitting := false;
    }

    /** `currentQuestionData`. */
    function CurrentQuestion(): (q: Question)
      reads this
      requires Valid()
      ensures q in test.sections[section].questions
    {
      test.sections[section].questions[question]
    }

    method HandleNext()
      requires Valid()
      modifies this`section, this`question
      ensures Valid()
      ensures Position() == Next(sizes, old(Position()))
    {
      NextSteps(sizes, Position());
      if question < sizes[section] - 1 {
        question := question + 1;
      } else if section < |sizes| - 1 {
        section := section + 1;
        question := 0;
      }
    }

    method HandlePrevious()
      requires Valid()
      modifies this`section, this`question
      ensures Valid()
      ensures Position() == Previous(sizes, old(Position()))
    {
      PreviousSteps(sizes, Position());
      if question > 0 {
        question := question - 1;
      } else if section > 0 {
        section := section - 1;
        question := sizes[section] - 1;
      }
    }

    /** A click on the navigator button of question `qIdx` of section `sIdx`. */
    method Jump(sIdx: nat, qIdx: nat)
      requires Valid() && InBounds(sizes, Cursor(sIdx, qIdx))
      modifies this`section, this`question
      ensures Valid()
      ensures Position() == Cursor(sIdx, qIdx)
    {
      section, question := sIdx, qIdx;
    }

    method HandleAnswerChange(questionId: string, value: string)
      requires Valid()
      modifies this`answers
      ensures Valid()
      ensures questionId in answers && answers[questionId] == value
      ensures answers.Keys == old(answers).Keys + {questionId}
      ensures forall k :: k in old(answers) && k != questionId ==> answers[k] == old(answers)[k]
    {
      answers := answers[questionId := value];
    }

    /** The `onChange` of the current question's options or text area. */
    method AnswerCurrent(value: string)
      requires Valid()
      modifies this`answers
      ensures Valid()
      ensures answers == old(answers)[CurrentQuestion().id := value]
    {
      HandleAnswerChange(CurrentQuestion().id, value);
    }

    /** One second of the interval; `submit` says whether it called `handleSubmit`. */
    method Tick() returns (submit: bool)
      requires Valid()
      modifies this`timeRemaining
      ensures Valid()
      ensures old(timeRemaining) > 0 ==> timeRemaining == old(timeRemaining) - 1 && !submit
      ensures old(timeRemaining) == 0 ==> timeRemaining == 0 && submit
      ensures timeRemaining == TickRemaining(old(timeRemaining)) && submit == TickSubmits(old(timeRemaining))
    {
      if timeRemaining <= 0 {
        submit := true;
        timeRemaining := 0;
      } else {
        submit := false;
        timeRemaining := timeRemaining - 1;
      }
    }

    /**
     * `handleSubmit`, with the answer to the confirmation dialog as a parameter.
     * The result route uses the route's own `testId`, not the test shown.
     */
    method HandleSubmit(confirmed: bool) returns (outcome: SubmitOutcome)
      requires Valid()
      modifies this`isSubmitting
      ensures Valid()
      ensures !confirmed ==> outcome == Stay && isSubmitting == old(isSubmitting)
      ensures confirmed ==> isSubmitting && outcome == ShowResult("/test-result/" + testId, answers)
    {
      if !confirmed {
        return Stay;
      }
      isSubmitting := true;
      outcome := ShowResult("/test-result/" + testId, answers);
    }

    /** `disabled` of the "previous" button: exactly where `handlePrevious` does nothing. */
    function PreviousDisabled(): (disabled: bool)
      reads this
      requires Valid()
      ensures disabled <==> Previous(sizes, Position()) == Position()
      ensures disabled <==> Flat(sizes, Position()) == 0
    {
      PreviousIsNoOpIffFirst(sizes, Position());
      IsFirstIffIndexZero(sizes, Position());
      section == 0 && question == 0
    }

    /** Whether the submit button stands in place of "next": exactly where `handleNext` does nothing. */
    function ShowsSubmit(): (submit: bool)
      reads this
      requires Valid()
      ensures submit <==> Next(sizes, Position()) == Position()
      ensures submit <==> Flat(sizes, Position()) + 1 == Total(sizes)
    {
      NextIsNoOpIffLast(sizes, Position());
      IsLastIffFinalIndex(sizes, Position());
      section == |test.sections| - 1 && question == |test.sections[section].questions| - 1
    }

    /** The style of the navigator button of `(sIdx, qIdx)`; an empty answer counts as unanswered. */
    function ButtonStyle(sIdx: nat, qIdx: nat): (style: NavigatorStyle)
      reads this
      requires Valid() && InBounds(sizes, Cursor(sIdx, qIdx))
      ensures style == Current <==> Cursor(sIdx, qIdx) == Position()
      ensures style == Answered <==>
        var id := test.sections[sIdx].questions[qIdx].id;
        Cursor(sIdx, qIdx) != Position() && id in answers && answers[id] != ""
    {
      var id := test.sections[sIdx].questions[qIdx].id;
      if sIdx == section && qIdx == question then Current
      else if id in answers && answers[id] != "" then Answered
      else Unanswered
    }
  }
}
