# KVIT front-end: test runner, free-test gating, result bands and chatbot

This project models the four pieces of rule-based logic in the KVIT exam-prep
front-end (a React application for TOPIK Korean tests) and proves properties of them:

- **Test runner** (`src/pages/Test/TestRunner.jsx`). A cursor `(section, question)`
  moves over the sections of a mock test. "Next" goes to the next question, or to the
  first question of the next section. "Previous" goes back one question, or to the
  *last* question of the previous section. The question navigator jumps anywhere.
  Alongside the cursor the runner keeps an answer map keyed by question id, a countdown
  that starts at 3600 seconds and stops at 0, and a submitting flag. It also has an
  `m:ss` formatter and a key filter that swallows the developer-tools shortcuts.
  The runner is the class `TestRunner.Runner`. Its cursor moves are specified by the
  pure functions of module `Navigation`, which works over the list of section sizes.
  `Navigation` checks those functions against a reference reading: the cursor's index
  in the flattened list of all questions. "Next" is +1 and "previous" is -1 on that
  index, except at the two ends.
- **Free-test list** (`src/pages/Guest/FreeTestList.jsx`). It is a decision table over
  the quota record that an IP-based tracker supplies. The table decides whether a test
  counts as completed, whether its button is enabled, what the button says, whether
  starting is allowed, and when the no-quota banner appears.
- **Test result** (`src/pages/Test/TestResult.jsx`). It has four classifications of a
  score (text colour, banner gradient, header emoji, header message) that share the
  thresholds 80 and 60. It also has the retake button and the count handed to the
  upgrade dialog, both taken from the quota, and a mock result whose numbers add up.
- **Chatbot** (`src/components/AIChatbot.jsx`). It is a class with an open flag, an
  input buffer and a message list that starts with the bot's welcome and only grows.
  Sending ignores blank input. The bot's delayed answer is a separate step.

Modules: `Wrappers` (Option), `NumberText` (JavaScript's decimal printing of naturals,
`padStart`, reading digits back), `Navigation`, `TestData` (the runner's mock
`testData` table and its lookup), `TestRunner`, `Quota` (the tracker's record,
treated as an opaque input), `FreeTestList`, `TestResult`, `AIChatbot`.

Conventions:
- Translated texts (`t('key', fallback)`) are represented by their translation keys.
- Scores are JavaScript numbers and are modelled as reals.
- Optional fields of the quota record are `Option` values. JavaScript's `x || d` is
  modelled with 0 counted as falsy, so a total of 0 is displayed as 2.

Two facts about the code:
- `TestRunner.CountdownIgnoresDuration` shows that the countdown does not follow a
  test's advertised duration. Test-2 is listed as 90 minutes but gets 60.
- `TestRunner.Runner.HandleSubmit` sends the user to the result route built from the
  route's own test id. For an unknown id, that is not the id of the test that was shown.

## Model

| member | source | states |
|---|---|---|
| `Navigation.NextSteps` | src/pages/Test/TestRunner.jsx:133-140 | "next" keeps the cursor on an existing question; at the last question it does nothing; elsewhere it moves exactly one question forward in the flattened question order |
| `Navigation.Next` | src/pages/Test/TestRunner.jsx:133-140 | "next" gives an existing question, in the same section or the first of the next one |
| `Navigation.PreviousSteps` | src/pages/Test/TestRunner.jsx:142-149 | "previous" keeps the cursor in bounds; at (0,0) it does nothing; elsewhere it moves exactly one question back, which from a section's first question is the previous section's last |
| `Navigation.Previous` | src/pages/Test/TestRunner.jsx:142-149 | "previous" gives an existing question, in the same section or the last of the one before |
| `Navigation.PreviousAfterNext` | src/pages/Test/TestRunner.jsx:133-149 | "previous" after "next" restores the cursor whenever it was not at the last question |
| `Navigation.NextAfterPrevious` | src/pages/Test/TestRunner.jsx:133-149 | "next" after "previous" restores the cursor whenever it was not at (0,0) |
| `Navigation.PreviousIsNoOpIffFirst` | src/pages/Test/TestRunner.jsx:142-149 | "previous" leaves the cursor unchanged exactly at (0,0) |
| `Navigation.NextIsNoOpIffLast` | src/pages/Test/TestRunner.jsx:133-140 | "next" leaves the cursor unchanged exactly at the last question of the last section |
| `Navigation.IsFirstIffIndexZero` | src/pages/Test/TestRunner.jsx:266 | the condition that disables "previous" holds exactly at flat index 0 |
| `Navigation.IsLastIffFinalIndex` | src/pages/Test/TestRunner.jsx:272 | the condition that shows the submit button holds exactly at the final flat index |
| `Navigation.AdvanceSteps` | src/pages/Test/TestRunner.jsx:133-140 | pressing "next" k times advances k questions in the flattened order, stops at the last question, and never leaves the test, and never leaves the test |
| `Navigation.Reachable` | src/pages/Test/TestRunner.jsx:133-140 | pressing "next" from the start as often as a question's flat index lands exactly on that question, so every question is reachable |
| `TestData.Lookup` | src/pages/Test/TestRunner.jsx:75 | the route's test id selects test-2 exactly when it is "test-2" and test-1 otherwise; the selected test always has sections, every section has questions, and no two questions share an id |
| `TestData.TestsUniqueIds` | src/pages/Test/TestRunner.jsx:19-73 | the ids L1..L20, R1..R20, W1, W2 of both mock tests are pairwise distinct, so each answer has its own key |
| `TestData.LookupAsWritten` | src/pages/Test/TestRunner.jsx:75 | the lookup as written yields no test exactly for the names a plain object inherits from Object.prototype, and otherwise agrees with `TestData.Lookup` |
| `TestData.PropertyOf` | src/pages/Test/TestRunner.jsx:75 | the object literal has an own test exactly for "test-1" and "test-2", an inherited member exactly for the Object.prototype names, and undefined for every other key |
| `TestData.ConstructorKeyHasNoFallback` | src/pages/Test/TestRunner.jsx:75 | for the id "constructor" the written lookup yields no test, while the fallback gives test-1 |
| `NumberText.NatToString` | src/pages/Test/TestRunner.jsx:126 | the decimal numeral of a natural has digits only, has no leading zero except for 0 itself, and has one digit below 10 and at most two below 100 |
| `NumberText.ValueOfNatToString` | src/pages/Test/TestRunner.jsx:126 | reading a numeral back gives the number printed |
| `NumberText.PadStart` | src/pages/Test/TestRunner.jsx:126 | `padStart` reaches the requested width, keeps the original text as a suffix, and fills only with the fill character |
| `TestRunner.FormatTime` | src/pages/Test/TestRunner.jsx:123-127 | the display is minutes, ':', then exactly two digits; the seconds part is below 60; minutes * 60 + seconds is the input; minutes start with '0' only below one minute, and are then the single digit "0" |
| `TestRunner.ParseFormatTime` | src/pages/Test/TestRunner.jsx:123-127 | reading the "m:ss" display back gives the countdown value |
| `TestRunner.FormatTimeInjective` | src/pages/Test/TestRunner.jsx:188 | different countdown values are displayed differently |
| `TestRunner.FormatInitialTime` | src/pages/Test/TestRunner.jsx:15 | the initial 3600 seconds are displayed as "60:00" |
| `TestRunner.FormatPadsSeconds` | src/pages/Test/TestRunner.jsx:126 | 65 seconds are displayed as "1:05" |
| `TestRunner.TimerUrgent` | src/pages/Test/TestRunner.jsx:184 | the timer turns red exactly when the displayed minutes are below 5 |
| `TestRunner.IsBlockedKey` | src/pages/Test/TestRunner.jsx:98-101 | without Ctrl only F12 is blocked; with Ctrl but no Shift, F12 and "u"; with Ctrl and Shift, F12, "I", "J" and "u" |
| `TestRunner.KeyFilterIsCaseSensitive` | src/pages/Test/TestRunner.jsx:100-101 | Ctrl+"U" and Ctrl+Shift+"i"/"j" pass the filter; Ctrl+"u" and Ctrl+Shift+"I" do not; "I" needs Shift |
| `TestRunner.TicksCountDown` | src/pages/Test/TestRunner.jsx:82-88 | after k ticks the countdown has dropped by k, stopping at 0 and never going negative |
| `TestRunner.TickRemaining` | src/pages/Test/TestRunner.jsx:82-88 | one tick lowers a positive countdown by exactly 1 and leaves 0 at 0 |
| `TestRunner.TickSubmits` | src/pages/Test/TestRunner.jsx:83-85 | a tick calls submit exactly when the countdown is already 0 |
| `TestRunner.TickNumberSubmits` | src/pages/Test/TestRunner.jsx:83-85 | the k-th tick calls submit exactly when k exceeds the starting value, that is, on every tick once the countdown is at 0 |
| `TestRunner.CountdownIgnoresDuration` | src/pages/Test/TestRunner.jsx:15 | the 3600-second start matches test-1's 60 minutes but is less than test-2's 90 |
| `TestRunner.Runner.constructor` | src/pages/Test/TestRunner.jsx:12-16 | the runner starts at the first question with no answers, 3600 seconds and not submitting, on the test its route selects |
| `TestRunner.Runner.CurrentQuestion` | src/pages/Test/TestRunner.jsx:76-77 | the current question exists and belongs to the current section |
| `TestRunner.Runner.HandleNext` | src/pages/Test/TestRunner.jsx:133-140 | the new cursor is `Navigation.Next` of the old one; answers, countdown and flag are untouched |
| `TestRunner.Runner.HandlePrevious` | src/pages/Test/TestRunner.jsx:142-149 | the new cursor is `Navigation.Previous` of the old one; nothing else changes |
| `TestRunner.Runner.Jump` | src/pages/Test/TestRunner.jsx:299-302 | a navigator click moves the cursor to any existing question; nothing else changes |
| `TestRunner.Runner.HandleAnswerChange` | src/pages/Test/TestRunner.jsx:129-131 | the answer for the id becomes the value, the key set grows by at most that id, and every other answer keeps its value |
| `TestRunner.Runner.AnswerCurrent` | src/pages/Test/TestRunner.jsx:232 | the options and the text area record the value under the current question's id |
| `TestRunner.Runner.Tick` | src/pages/Test/TestRunner.jsx:82-88 | a positive countdown drops by exactly 1 without submitting; at 0 it stays 0 and submit is requested |
| `TestRunner.Runner.HandleSubmit` | src/pages/Test/TestRunner.jsx:151-163 | a declined confirmation changes nothing; a confirmed one sets the submitting flag and goes to `/test-result/` plus the route's test id, carrying the answers |
| `TestRunner.Runner.PreviousDisabled` | src/pages/Test/TestRunner.jsx:266 | "previous" is disabled exactly where pressing it would do nothing, which is flat index 0 |
| `TestRunner.Runner.ShowsSubmit` | src/pages/Test/TestRunner.jsx:272 | the submit button replaces "next" exactly where pressing "next" would do nothing, which is the final flat index |
| `TestRunner.Runner.ButtonStyle` | src/pages/Test/TestRunner.jsx:303-307 | a navigator button is highlighted exactly for the current question, and is marked answered exactly when it is another question whose answer is present and non-empty |
| `Quota.OrDefault` | src/pages/Guest/FreeTestList.jsx:110 | JavaScript's `x or d` on an optional number gives a present non-zero value, and otherwise the default; `FreeTestList.ZeroTotalDisplaysAsTwo` and `TestResult.TestsTaken` rely on it |
| `FreeTestList.CardsMatchRunner` | src/pages/Guest/FreeTestList.jsx:30-58 | every card's question total is the sum of its section counts, and its section counts and duration are those of the test the runner shows for its id |
| `FreeTestList.SomeCompleted` | src/pages/Guest/FreeTestList.jsx:70 | `.some` holds exactly when some history entry has the test's id and is completed |
| `FreeTestList.CanTake` | src/pages/Guest/FreeTestList.jsx:123 | a test can be taken exactly with quota left or when it is completed; never without a quota record |
| `FreeTestList.IsTestCompleted` | src/pages/Guest/FreeTestList.jsx:68-71 | false with no quota or no history; otherwise true exactly when the history holds a completed entry for the id |
| `FreeTestList.ButtonDisabled` | src/pages/Guest/FreeTestList.jsx:122-123 | the card button is disabled exactly when there is no quota and the test is not completed |
| `FreeTestList.Label` | src/pages/Guest/FreeTestList.jsx:193-197 | "retake" exactly for completed tests; "start" exactly with quota and not completed; "locked" exactly without either |
| `FreeTestList.DisabledIffLocked` | src/pages/Guest/FreeTestList.jsx:187-197 | the button is disabled exactly when it reads "locked" |
| `FreeTestList.HandleStartTest` | src/pages/Guest/FreeTestList.jsx:60-66 | starting is refused exactly when the quota is absent or has no quota left; otherwise it navigates to `/test-runner/` plus the id |
| `FreeTestList.RunnerPathInjective` | src/pages/Guest/FreeTestList.jsx:65 | different tests are started on different routes |
| `FreeTestList.StartButtonNavigates` | src/pages/Guest/FreeTestList.jsx:193-196 | a button reading "start" always leads into the runner |
| `FreeTestList.RetakeEnabledButRefused` | src/pages/Guest/FreeTestList.jsx:185-187 | a completed test without quota has an enabled "retake" button whose click is refused |
| `FreeTestList.RetakeRefusedExample` | src/pages/Guest/FreeTestList.jsx:60-66 | a concrete record (no quota left, test-1 completed) shows an enabled button for test-1 that refuses to start |
| `FreeTestList.ShowNoQuotaBanner` | src/pages/Guest/FreeTestList.jsx:206 | the banner is shown exactly when a quota record is present and has no quota; `FreeTestList.BannerLocksNewTests` proves what it then implies for the cards |
| `FreeTestList.BannerLocksNewTests` | src/pages/Guest/FreeTestList.jsx:206 | with the banner up, every test not yet completed is locked and disabled |
| `FreeTestList.MissingQuotaLocksSilently` | src/pages/Guest/FreeTestList.jsx:193-206 | without a quota record every test is locked but no banner appears |
| `FreeTestList.QuotaDisplay` | src/pages/Guest/FreeTestList.jsx:110 | the counter shows 0/2 without a record, and otherwise the remaining count (0 when missing or 0) over the total (2 when missing or 0); `FreeTestList.ZeroTotalDisplaysAsTwo` shows the falsy-zero case |
| `FreeTestList.ZeroTotalDisplaysAsTwo` | src/pages/Guest/FreeTestList.jsx:110 | a recorded total of 0 is displayed as 2 |
| `TestResult.ScoreColor` | src/pages/Test/TestResult.jsx:58-62 | green exactly from 80, yellow exactly on [60, 80), red exactly below 60 |
| `TestResult.ScoreBgColor` | src/pages/Test/TestResult.jsx:64-68 | the green, yellow and red gradients on exactly the same three bands |
| `TestResult.HeaderEmoji` | src/pages/Test/TestResult.jsx:79 | party popper exactly from 80, thumbs up exactly on [60, 80), books exactly below 60 |
| `TestResult.HeaderMessage` | src/pages/Test/TestResult.jsx:85-89 | the excellent, good and needs-improvement messages on exactly the same three bands |
| `TestResult.RenderingsAgree` | src/pages/Test/TestResult.jsx:79-96 | colour, gradient, emoji (party, thumbs up, books) and message (excellent, good, needs improvement) all pick the same band as the reference classification |
| `TestResult.BandMonotone` | src/pages/Test/TestResult.jsx:58-62 | a higher score never gets a lower band |
| `TestResult.ShowRetake` | src/pages/Test/TestResult.jsx:204 | the retake button is shown exactly when a quota record is present and has quota; `TestResult.RetakeAgreesWithStart` proves it matches the free-test list's start rule |
| `TestResult.RetakeAgreesWithStart` | src/pages/Test/TestResult.jsx:204-206 | the retake button appears exactly when the free-test list would allow the start, and it leads to the same route |
| `TestResult.TestsTaken` | src/pages/Test/TestResult.jsx:228 | the count is 0 without a record or without a completed count, and the completed count otherwise |
| `TestResult.MockResultConsistent` | src/pages/Test/TestResult.jsx:19-26 | section corrects add up to the correct answers (16+14=30), section totals to the question count (20+20=40), and every score is correct*100/total (75, 80, 70) |
| `TestResult.MockResultShapedLikeTest1` | src/pages/Test/TestResult.jsx:23-26 | the mock result's section totals are test-1's section sizes |
| `TestResult.MockResultRendering` | src/pages/Test/TestResult.jsx:96-117 | the mock result renders in the "good" band overall, with a green listening score and a yellow reading score |
| `AIChatbot.TrimStart` | src/components/AIChatbot.jsx:20 | removes exactly the leading run of ECMAScript whitespace |
| `AIChatbot.TrimEnd` | src/components/AIChatbot.jsx:20 | removes exactly the trailing run of ECMAScript whitespace |
| `AIChatbot.BlankIffAllWhitespace` | src/components/AIChatbot.jsx:20 | the trimmed input is empty exactly when every character is whitespace |
| `AIChatbot.Chatbot.constructor` | src/components/AIChatbot.jsx:6-10 | the widget starts closed, with an empty input and exactly one message, the bot's welcome |
| `AIChatbot.Chatbot.SetInput` | src/components/AIChatbot.jsx:104 | typing replaces the input |
| `AIChatbot.Chatbot.HandleSend` | src/components/AIChatbot.jsx:19-33 | blank input changes nothing; otherwise exactly one user message with the untrimmed text is appended after the unchanged earlier messages, the input is cleared, one reply is scheduled, and the quick actions disappear |
| `AIChatbot.Chatbot.KeyPress` | src/components/AIChatbot.jsx:105 | Enter does what `handleSend` does (nothing for blank input; otherwise append the untrimmed user message, clear the input, schedule one reply); any other key changes nothing; the list never shrinks |
| `AIChatbot.Chatbot.DeliverReply` | src/components/AIChatbot.jsx:25-30 | a scheduled reply appends exactly one bot message at the end, so the old list is a proper prefix of the new one |
| `AIChatbot.Chatbot.QuickActionsShown` | src/components/AIChatbot.jsx:82 | quick actions are offered exactly while the window is open and the conversation is only the welcome |
| `AIChatbot.Chatbot.ChooseQuickAction` | src/components/AIChatbot.jsx:87 | choosing a quick action sets the input to its text and sends nothing |
| `AIChatbot.Chatbot.Toggle` | src/components/AIChatbot.jsx:124 | the floating button flips the open flag |
| `AIChatbot.Chatbot.Close` | src/components/AIChatbot.jsx:53 | the header button always closes the window |

## Findings

| source | as written | input that shows it | evidently intended | confidence | as-written member | corrected member |
|---|---|---|---|---|---|---|
| src/pages/Test/TestRunner.jsx:75 | the lookup with fallback to `testData['test-1']` on a plain object literal also finds the members inherited from Object.prototype | route `/test-runner/constructor`: `testData.constructor` is the truthy `Object` function, so there is no fallback, `test.sections` is undefined and line 76 throws | every id other than test-1 and test-2 falls back to test-1 | medium, not executed | `TestData.LookupAsWritten`, `TestData.ConstructorKeyHasNoFallback` | `TestData.Lookup` |

## Left out

- The IP-based tracker is not part of this model: `checkQuota`, `recordTestAttempt` and `shouldShowUpgradePopup`. Its record is an input, and the pages' loading state and asynchronous loading of it are left out.
- Timers are left out. The interval and the reply timeout are explicit steps (`Tick`, `DeliverReply`). The interval's stale closure over `handleSubmit` is not modelled.
- `window.confirm` is a parameter of `HandleSubmit`. `alert` is the `Refuse` outcome. `navigate` is the target path in an outcome. Awaiting the tracker is left out.
- The progress bar width (TestRunner.jsx:165) is left out. It is floating-point arithmetic that only sets a CSS width.
- DOM effects are left out: listener registration, `preventDefault`, the always-blocked context menu, scrolling and the audio player. Question texts, option labels and audio URLs are not modelled. A question keeps only its id, whether it has audio, and whether it is an essay.
- The result page's upgrade-dialog open flag is left out. It is shown on a click or on the tracker's say-so and hidden on close.
- i18n is opaque: translated strings are their translation keys.
- TestRunner.Runner.constructor: builds the runner on the corrected lookup `TestData.Lookup`. For the twelve Object.prototype names the code as written throws at TestRunner.jsx:76, because the inherited member has no `sections` (see Findings). The model gives a test-1 runner for them instead.
- TestRunner.FormatTime: takes only non-negative seconds. Its one caller passes the countdown, which is a natural number. What JavaScript prints for negative input is not modelled.
- TestResult.ScoreColor: scores are reals. JavaScript's NaN, which falls into the red band, is not modelled.
- The quota record's `hasQuota` is a boolean, so a missing field reads as false. Numeric fields are integers.
- AIChatbot.Chatbot.HandleSend: two sends within one React render would both read the same `messages` closure. The model applies each send to the current list.
- Whole files: Homepage.jsx (static markup), Navbar.jsx (scroll- and route-dependent styling, language toggle), UpgradeModal.jsx (static package list), ContactModal.jsx (form fields and logging), App.jsx (route table), tailwind.config.js (styling).
